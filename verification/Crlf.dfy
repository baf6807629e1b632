/** Strict CRLF line endings for serialized messages. */
module Crlf {
  import opened Prelude
  import opened Text

  predicate IsEol(b: Byte) { b == '\r' || b == '\n' }

  /** Length of the line break `s` begins with: a pair, a bare CR or a bare LF; 0 if there is none. */
  function BreakLength(s: Bytes): (n: nat)
    ensures n <= |s|
  {
    if s == [] || !IsEol(s[0]) then 0
    else if s[0] == '\r' && |s| >= 2 && s[1] == '\n' then 2
    else 1
  }

  /** Reference definition: every line break becomes a pair, and nothing else changes. */
  function Normal(s: Bytes): Bytes {
    if s == [] then []
    else if BreakLength(s) > 0 then "\r\n" + Normal(s[BreakLength(s)..])
    else [s[0]] + Normal(s[1..])
  }

  /** What the next bytes contribute, and where the rest begins. */
  lemma NormalNext(s: Bytes, i: nat, out: Bytes)
    requires i < |s|
    ensures var next := if s[i] == '\r' && i + 1 < |s| && s[i + 1] == '\n' then i + 2 else i + 1;
            out + Normal(s[i..]) == out + (if IsEol(s[i]) then "\r\n" else [s[i]]) + Normal(s[next..])
  {
    var next := if s[i] == '\r' && i + 1 < |s| && s[i + 1] == '\n' then i + 2 else i + 1;
    assert s[i..][next - i..] == s[next..];
    ConcatAssociates(out, if IsEol(s[i]) then "\r\n" else [s[i]], Normal(s[next..]));
  }

  /** Single pass with one byte of lookahead. */
  method NormalizeCrlf(input: Bytes) returns (out: Bytes)
    ensures out == Normal(input)
  {
    out := [];
    var i := 0;
    while i < |input|
      invariant 0 <= i <= |input|
      invariant Normal(input) == out + Normal(input[i..])
    {
      NormalNext(input, i, out);
      if input[i] == '\r' {
        out := out + "\r\n";
        if i + 1 < |input| && input[i + 1] == '\n' { i := i + 1; }
      } else if input[i] == '\n' {
        out := out + "\r\n";
      } else {
        out := out + [input[i]];
      }
      i := i + 1;
    }
  }

  /** CR and LF occur only as CRLF pairs (section 2.3 of RFC 5322). */
  predicate OnlyPairs(s: Bytes) {
    s == [] ||
    if BreakLength(s) == 2 then OnlyPairs(s[2..])
    else BreakLength(s) == 0 && OnlyPairs(s[1..])
  }

  /** A CR at `i` is followed by LF, and a LF at `i` is preceded by CR. */
  predicate PairedAt(s: Bytes, i: nat)
    requires i < |s|
  {
    (s[i] == '\r' ==> i + 1 < |s| && s[i + 1] == '\n') && (s[i] == '\n' ==> i > 0 && s[i - 1] == '\r')
  }

  ghost predicate Paired(s: Bytes) {
    forall i :: 0 <= i < |s| ==> PairedAt(s, i)
  }

  lemma {:induction false} OnlyPairsArePaired(s: Bytes, i: nat)
    requires OnlyPairs(s) && i < |s|
    ensures PairedAt(s, i)
  {
    var n := if BreakLength(s) == 2 then 2 else 1;
    if i >= n { OnlyPairsArePaired(s[n..], i - n); }
  }

  lemma {:induction false} PairedIsOnlyPairs(s: Bytes)
    requires Paired(s)
    ensures OnlyPairs(s)
    decreases |s|
  {
    if s != [] {
      assert PairedAt(s, 0);
      var n := if BreakLength(s) == 2 then 2 else 1;
      var t := s[n..];
      forall j | 0 <= j < |t| ensures PairedAt(t, j) { assert PairedAt(s, j + n); }
      PairedIsOnlyPairs(t);
    }
  }

  /** Read index by index. */
  lemma OnlyPairsIffPaired(s: Bytes)
    ensures OnlyPairs(s) <==> Paired(s)
  {
    if OnlyPairs(s) {
      forall i | 0 <= i < |s| ensures PairedAt(s, i) { OnlyPairsArePaired(s, i); }
    } else if Paired(s) {
      PairedIsOnlyPairs(s);
    }
  }

  lemma {:induction false} NormalHasOnlyPairs(s: Bytes)
    ensures OnlyPairs(Normal(s))
    decreases |s|
  {
    if s != [] {
      var n := if BreakLength(s) > 0 then BreakLength(s) else 1;
      NormalHasOnlyPairs(s[n..]);
      var t := Normal(s);
      if BreakLength(s) > 0 { assert t[2..] == Normal(s[n..]); } else { assert t[1..] == Normal(s[n..]); }
    }
  }

  lemma {:induction false} PairsAreFixed(s: Bytes)
    requires OnlyPairs(s)
    ensures Normal(s) == s
    decreases |s|
  {
    if s != [] {
      var n := if BreakLength(s) > 0 then 2 else 1;
      PairsAreFixed(s[n..]);
      assert s == s[..n] + s[n..];
      if n == 2 { assert s[..2] == "\r\n"; } else { assert s[..1] == [s[0]]; }
    }
  }

  /** The input is left alone exactly when its line endings are strict already. */
  lemma {:induction false} FixedIffOnlyPairs(s: Bytes)
    ensures Normal(s) == s <==> OnlyPairs(s)
    decreases |s|
  {
    if OnlyPairs(s) { PairsAreFixed(s); } else if Normal(s) == s { NormalHasOnlyPairs(s); }
  }

  lemma NormalTwice(s: Bytes)
    ensures Normal(Normal(s)) == Normal(s)
  {
    NormalHasOnlyPairs(s);
    PairsAreFixed(Normal(s));
  }

  /** The lines of a text, whichever of the three line breaks ends each. */
  function Lines(s: Bytes): (r: seq<Bytes>)
    ensures |r| >= 1
    decreases |s|
  {
    if s == [] then [[]]
    else if BreakLength(s) > 0 then [[]] + Lines(s[BreakLength(s)..])
    else var r := Lines(s[1..]); [[s[0]] + r[0]] + r[1..]
  }

  /** Same lines: no line is lost, added, joined or altered. */
  lemma {:induction false} NormalKeepsLines(s: Bytes)
    ensures Lines(Normal(s)) == Lines(s)
    decreases |s|
  {
    if s != [] {
      var n := if BreakLength(s) > 0 then BreakLength(s) else 1;
      NormalKeepsLines(s[n..]);
      var t := Normal(s);
      if BreakLength(s) > 0 {
        assert t[2..] == Normal(s[n..]) && BreakLength(t) == 2;
      } else {
        assert t[0] == s[0] && t[1..] == Normal(s[1..]);
      }
    }
  }

  /** The bytes that are no line break, in order. */
  function Payload(s: Bytes): Bytes {
    if s == [] then [] else (if IsEol(s[0]) then [] else [s[0]]) + Payload(s[1..])
  }

  lemma {:induction false} NormalKeepsPayload(s: Bytes)
    ensures Payload(Normal(s)) == Payload(s)
    decreases |s|
  {
    if s != [] {
      var n := if BreakLength(s) > 0 then BreakLength(s) else 1;
      NormalKeepsPayload(s[n..]);
      var t := Normal(s);
      if n == 2 { assert s[1..][1..] == s[2..]; }
      if BreakLength(s) > 0 {
        assert t[1..] == "\n" + Normal(s[n..]) && t[1..][1..] == Normal(s[n..]);
      } else {
        assert t[1..] == Normal(s[1..]);
      }
    }
  }

  /** At most twice as long, and never shorter. */
  lemma {:induction false} NormalLength(s: Bytes)
    ensures |s| <= |Normal(s)| <= 2 * |s|
    decreases |s|
  {
    if s != [] { NormalLength(s[if BreakLength(s) > 0 then BreakLength(s) else 1..]); }
  }

  function JoinLines(lines: seq<Bytes>): Bytes {
    if lines == [] then []
    else if |lines| == 1 then lines[0]
    else lines[0] + "\r\n" + JoinLines(lines[1..])
  }

  lemma JoinBreak(lines: seq<Bytes>)
    requires lines != []
    ensures JoinLines([[]] + lines) == "\r\n" + JoinLines(lines)
  {
  }

  lemma JoinByte(b: Byte, lines: seq<Bytes>)
    requires lines != []
    ensures JoinLines([[b] + lines[0]] + lines[1..]) == [b] + JoinLines(lines)
  {
  }

  lemma {:induction false} StrictIsJoined(s: Bytes)
    requires OnlyPairs(s)
    ensures JoinLines(Lines(s)) == s
    decreases |s|
  {
    if s == [] {
    } else if BreakLength(s) == 2 {
      StrictIsJoined(s[2..]);
      JoinBreak(Lines(s[2..]));
      assert s[..2] == "\r\n" && s == s[..2] + s[2..];
    } else {
      StrictIsJoined(s[1..]);
      JoinByte(s[0], Lines(s[1..]));
      assert s == [s[0]] + s[1..];
    }
  }

  /** The result is the one text with strict line endings that has the same lines. */
  lemma NormalIsTheOnlyOne(s: Bytes, t: Bytes)
    requires OnlyPairs(t) && Lines(t) == Lines(s)
    ensures t == Normal(s)
  {
    StrictIsJoined(t);
    NormalHasOnlyPairs(s);
    StrictIsJoined(Normal(s));
    NormalKeepsLines(s);
  }
}
