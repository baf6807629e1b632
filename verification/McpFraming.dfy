/** JSON-RPC messages over stdio: one per line, or behind a Content-Length header. */
module McpFraming {
  import opened Prelude
  import opened Text

  datatype ReadError =
    | LineNotUtf8 | InvalidLength | EofInHeaders | EofInBody | BodyNotUtf8

  datatype ReadResult = Message(text: Bytes) | Eof | Broken(error: ReadError)

  // ---------------------------------------------------------------- lines

  /** Length of the first line with its newline, or of everything when there is none. */
  function LineLength(s: Bytes): (n: nat)
    ensures n <= |s| && (s != [] ==> n > 0)
  {
    if s == [] then 0 else if s[0] == '\n' then 1 else 1 + LineLength(s[1..])
  }

  function FirstLine(s: Bytes): Bytes { s[..LineLength(s)] }

  function AfterLine(s: Bytes): Bytes { s[LineLength(s)..] }

  lemma {:induction false} LineLengthCut(line: Bytes, rest: Bytes)
    requires '\n' !in line
    ensures LineLength(line + "\n" + rest) == |line| + 1
  {
    if line != [] {
      LineLengthCut(line[1..], rest);
      assert (line + "\n" + rest)[0] == line[0] && line[0] != '\n';
      assert (line + "\n" + rest)[1..] == line[1..] + "\n" + rest;
    }
  }

  lemma {:induction false} LineCut(line: Bytes, rest: Bytes)
    requires '\n' !in line
    ensures FirstLine(line + "\n" + rest) == line + "\n" && AfterLine(line + "\n" + rest) == rest
  {
    var s := line + "\n" + rest;
    LineLengthCut(line, rest);
    assert s[..|line| + 1] == line + "\n" && s[|line| + 1..] == rest;
  }

  // ---------------------------------------------------------------- headers

  function Lower(b: Byte): Byte {
    if 'A' <= b <= 'Z' then (b as int + 32) as char else b
  }

  predicate SameIgnoringCase(a: Bytes, b: Bytes) {
    |a| == |b| && forall i :: 0 <= i < |a| ==> Lower(a[i]) == Lower(b[i])
  }

  const CONTENT_LENGTH: Bytes := "content-length"

  /** Index of the first colon, if any. */
  function ColonAt(s: Bytes): (r: Option<nat>)
    ensures r.Some? ==> r.value < |s| && s[r.value] == ':' && ':' !in s[..r.value]
    ensures r.None? ==> ':' !in s
  {
    if s == [] then None
    else if s[0] == ':' then Some(0)
    else match ColonAt(s[1..])
         case None => assert s == [s[0]] + s[1..]; None
         case Some(n) => assert s[..n + 1] == [s[0]] + s[1..][..n]; Some(n + 1)
  }

  /** The value of a Content-Length header line, if the line is one. */
  function LengthHeader(line: Bytes): Option<Bytes> {
    var colon := ColonAt(line);
    if colon.Some? && SameIgnoringCase(line[..colon.value], CONTENT_LENGTH)
    then Some(line[colon.value + 1..]) else None
  }

  /** Skip header lines up to the empty one. */
  function SkipHeaders(s: Bytes): (r: (Option<ReadError>, Bytes))
    ensures |r.1| <= |s|
    decreases |s|
  {
    if s == [] then (Some(EofInHeaders), [])
    else if !IsUtf8(FirstLine(s)) then (Some(LineNotUtf8), AfterLine(s))
    else if FirstLine(s) == "\r\n" || FirstLine(s) == "\n" then (None, AfterLine(s))
    else SkipHeaders(AfterLine(s))
  }

  function ReadBody(s: Bytes, n: nat): (r: (ReadResult, Bytes))
    ensures |r.1| <= |s|
  {
    if |s| < n then (Broken(EofInBody), [])
    else (if IsUtf8(s[..n]) then Message(s[..n]) else Broken(BodyNotUtf8), s[n..])
  }

  function ReadCounted(value: Bytes, s: Bytes): (r: (ReadResult, Bytes))
    ensures |r.1| <= |s|
  {
    match ParseUsize(TrimBytes(value))
    case None => (Broken(InvalidLength), s)
    case Some(n) =>
      match SkipHeaders(s)
      case (Some(error), rest) => (Broken(error), rest)
      case (None, rest) => ReadBody(rest, n)
  }

  /** One message off the front of the stream, and the stream that is left. */
  function ReadMessage(s: Bytes): (r: (ReadResult, Bytes))
    ensures |r.1| <= |s| && (r.0.Message? ==> |r.1| < |s|)
    decreases |s|
  {
    if s == [] then (Eof, [])
    else if !IsUtf8(FirstLine(s)) then (Broken(LineNotUtf8), AfterLine(s))
    else
      var trimmed := TrimBytes(FirstLine(s));
      if trimmed == [] then ReadMessage(AfterLine(s))
      else match LengthHeader(trimmed)
           case Some(value) => ReadCounted(value, AfterLine(s))
           case None => (Message(trimmed), AfterLine(s))
  }

  // ---------------------------------------------------------------- reader and writer

  /** A buffered byte stream. */
  class Reader {
    var input: Bytes

    constructor (bytes: Bytes)
      ensures input == bytes
    {
      input := bytes;
    }

    method ReadLine() returns (line: Bytes)
      modifies this
      ensures line == FirstLine(old(input)) && input == AfterLine(old(input))
    {
      var n := 0;
      assert input[0..] == input;
      while n < |input| && input[n] != '\n'
        invariant n <= |input| && LineLength(input) == n + LineLength(input[n..])
      {
        assert input[n..][1..] == input[n + 1..];
        n := n + 1;
      }
      if n < |input| { n := n + 1; }
      line := input[..n];
      input := input[n..];
    }

    /** Header lines up to the empty one; None once they have been read. */
    method ReadHeaders() returns (error: Option<ReadError>)
      modifies this
      ensures (error, input) == SkipHeaders(old(input))
    {
      while true
        invariant SkipHeaders(input) == SkipHeaders(old(input))
        decreases |input|
      {
        if input == [] { return Some(EofInHeaders); }
        var line := ReadLine();
        if !IsUtf8(line) { return Some(LineNotUtf8); }
        if line == "\r\n" || line == "\n" { return None; }
      }
    }

    method ReadMcpMessage() returns (r: ReadResult)
      modifies this
      ensures (r, input) == ReadMessage(old(input))
    {
      while true
        invariant ReadMessage(input) == ReadMessage(old(input))
        decreases |input|
      {
        if input == [] { return Eof; }
        var line := ReadLine();
        if !IsUtf8(line) { return Broken(LineNotUtf8); }
        var trimmed := TrimBytes(line);
        if trimmed != [] {
          var value := LengthHeader(trimmed);
          if value.None? { return Message(trimmed); }
          var length := ParseUsize(TrimBytes(value.value));
          if length.None? { return Broken(InvalidLength); }
          var error := ReadHeaders();
          if error.Some? { return Broken(error.value); }
          if |input| < length.value {
            input := [];
            return Broken(EofInBody);
          }
          var body := input[..length.value];
          input := input[length.value..];
          return if IsUtf8(body) then Message(body) else Broken(BodyNotUtf8);
        }
      }
    }
  }

  /** UTF-8 text from an opening to a closing brace. */
  predicate ObjectShaped(text: Bytes) {
    IsUtf8(text) && |text| >= 2 && text[0] == '{' && text[|text| - 1] == '}'
  }

  /** A further header line, without its line break. */
  predicate HeaderShaped(h: Bytes) {
    IsUtf8(h) && h != [] && h != "\r" && '\n' !in h
  }

  function HeaderBytes(others: seq<Bytes>): Bytes {
    if others == [] then "\r\n" else others[0] + "\n" + HeaderBytes(others[1..])
  }

  /** A piece of the stream: a message in either framing, or a blank line. */
  datatype Frame =
    | Line(text: Bytes, crlf: bool)
    | Counted(name: Bytes, others: seq<Bytes>, body: Bytes)
    | Blank(space: Bytes)
  {
    /** What a peer may send: an object on one line; any text behind a length; white space. */
    predicate Valid() {
      match this
      case Line(text, _) => ObjectShaped(text) && '\n' !in text
      case Counted(name, others, body) =>
        && SameIgnoringCase(name, CONTENT_LENGTH)
        && (forall h :: h in others ==> HeaderShaped(h))
        && IsUtf8(body) && |body| <= USIZE_MAX
      case Blank(space) => '\n' !in space && IsUtf8(space) && TrimBytes(space + "\n") == []
    }

    function OnWire(): Bytes {
      match this
      case Line(text, crlf) => text + (if crlf then "\r" else "") + "\n"
      case Counted(name, others, body) => name + ": " + Decimal(|body|) + "\r" + "\n" + (HeaderBytes(others) + body)
      case Blank(space) => space + "\n"
    }

    function Delivered(): seq<Bytes> {
      match this
      case Line(text, _) => [text]
      case Counted(_, _, body) => [body]
      case Blank(_) => []
    }
  }

  function Wire(frames: seq<Frame>): Bytes {
    if frames == [] then [] else frames[0].OnWire() + Wire(frames[1..])
  }

  lemma WireOne(f: Frame)
    ensures Wire([f]) == f.OnWire()
  {
  }

  class Writer {
    var output: Bytes

    constructor ()
      ensures output == []
    {
      output := [];
    }

    /** One line per message; `body` is the serialized value. */
    method WriteMcpMessage(body: Bytes)
      modifies this
      ensures output == old(output) + Wire([Line(body, false)])
    {
      WireOne(Line(body, false));
      output := output + (body + "\n");
    }
  }

  // ---------------------------------------------------------------- round trip

  function Texts(frames: seq<Frame>): seq<Bytes> {
    if frames == [] then [] else frames[0].Delivered() + Texts(frames[1..])
  }

  /** Everything a reader delivers, and how it ends. */
  function ReadAll(s: Bytes): (seq<Bytes>, ReadResult)
    decreases |s|
  {
    var (r, rest) := ReadMessage(s);
    if r.Message? then
      var (more, end) := ReadAll(rest);
      ([r.text] + more, end)
    else ([], r)
  }

  lemma NewlineUtf8(s: Bytes)
    requires IsUtf8(s)
    ensures IsUtf8(s + "\n") && IsUtf8(s + "\r")
  {
    AsciiIsUtf8("\n");
    AsciiIsUtf8("\r");
    Utf8Append(s, "\n");
    Utf8Append(s, "\r");
  }

  /** Neither end is white space. */
  predicate Firm(s: Bytes) {
    s != [] && WhiteHead(s) == 0 && WhiteTail(s) == 0
  }

  lemma HeadStays(s: Bytes, t: Bytes)
    requires s != [] && WhiteHead(s) == 0 && (t == "\n" || t == "\r")
    ensures WhiteHead(s + t) == 0
  {
  }

  lemma TrimBreak(s: Bytes)
    requires Firm(s)
    ensures TrimBytes(s + "\n") == s && TrimBytes(s + "\r" + "\n") == s
  {
    HeadStays(s, "\n");
    HeadStays(s, "\r");
    HeadStays(s + "\r", "\n");
    var (a, b) := (s + "\n", s + "\r" + "\n");
    assert a[..|a| - 1] == s;
    assert b[..|b| - 1] == s + "\r";
    assert (s + "\r")[..|s + "\r"| - 1] == s;
  }

  lemma NoLengthHeader(text: Bytes)
    requires text != [] && text[0] == '{'
    ensures LengthHeader(text).None?
  {
  }

  lemma ReadLineFrame(f: Frame, rest: Bytes)
    requires f.Valid() && f.Line?
    ensures ReadMessage(f.OnWire() + rest) == (Message(f.text), rest)
  {
    var line := if f.crlf then f.text + "\r" else f.text;
    assert f.OnWire() == line + "\n";
    NewlineUtf8(f.text);
    NewlineUtf8(line);
    LineCut(line, rest);
    TrimBreak(f.text);
    NoLengthHeader(f.text);
    assert f.OnWire() + rest != [];
  }

  lemma ReadBlank(f: Frame, rest: Bytes)
    requires f.Valid() && f.Blank?
    ensures ReadMessage(f.OnWire() + rest) == ReadMessage(rest)
  {
    NewlineUtf8(f.space);
    LineCut(f.space, rest);
    assert f.OnWire() + rest != [];
  }

  lemma HeaderSkipped(h: Bytes, rest: Bytes)
    requires HeaderShaped(h)
    ensures SkipHeaders(h + "\n" + rest) == SkipHeaders(rest)
  {
    var s, line := h + "\n" + rest, h + "\n";
    LineCut(h, rest);
    NewlineUtf8(h);
    assert line[..|h|] == h && s != [];
    assert line != "\n" by { assert |line| > 1; }
    assert line != "\r\n" by { assert "\r\n"[..1] == "\r"; }
  }

  lemma HeadersEnd(rest: Bytes)
    ensures SkipHeaders("\r\n" + rest) == (None, rest)
  {
    assert "\r\n" + rest == "\r" + "\n" + rest && "\r" + "\n" == "\r\n";
    LineCut("\r", rest);
    AsciiIsUtf8("\r\n");
  }

  lemma {:induction false} HeadersSkipped(others: seq<Bytes>, rest: Bytes)
    requires forall h :: h in others ==> HeaderShaped(h)
    ensures SkipHeaders(HeaderBytes(others) + rest) == (None, rest)
  {
    if others == [] {
      HeadersEnd(rest);
    } else {
      assert others[0] in others;
      HeadersSkipped(others[1..], rest);
      ConcatAssociates(others[0] + "\n", HeaderBytes(others[1..]), rest);
      HeaderSkipped(others[0], HeaderBytes(others[1..]) + rest);
    }
  }

  /** A header name is plain ASCII without a colon, a line break or a space at its start. */
  lemma NameIsPlain(name: Bytes)
    requires SameIgnoringCase(name, CONTENT_LENGTH)
    ensures |name| == 14 && forall i :: 0 <= i < |name| ==> 'A' <= name[i] <= 'z' || name[i] == '-'
  {
  }

  lemma {:induction false} FirstColon(name: Bytes, rest: Bytes)
    requires ':' !in name
    ensures ColonAt(name + ":" + rest) == Some(|name|)
  {
    var s := name + ":" + rest;
    if name != [] {
      FirstColon(name[1..], rest);
      assert s[0] == name[0] && s[1..] == name[1..] + ":" + rest;
    }
  }

  function LengthLine(name: Bytes, n: nat): Bytes {
    name + ":" + (" " + Decimal(n))
  }

  /** Plain ASCII on one line, without white space at its ends. */
  lemma LengthLineIsFirm(name: Bytes, n: nat)
    requires SameIgnoringCase(name, CONTENT_LENGTH)
    ensures var line := LengthLine(name, n); Firm(line) && '\n' !in line && IsUtf8(line)
  {
    var (d, line) := (Decimal(n), LengthLine(name, n));
    NameIsPlain(name);
    DecimalReads(n);
    assert line[0] == name[0] && line[|line| - 1] == d[|d| - 1];
    forall i | 0 <= i < |line| ensures line[i] < '\U{80}' && line[i] != '\n' {
      if i < |name| { assert line[i] == name[i]; }
      else if i >= |name| + 2 { assert line[i] == d[i - |name| - 2]; }
    }
    AsciiIsUtf8(line);
  }

  lemma LengthLineIsHeader(name: Bytes, n: nat)
    requires SameIgnoringCase(name, CONTENT_LENGTH)
    ensures LengthHeader(LengthLine(name, n)) == Some(" " + Decimal(n))
  {
    var line := LengthLine(name, n);
    NameIsPlain(name);
    FirstColon(name, " " + Decimal(n));
    assert line[..|name|] == name && line[|name| + 1..] == " " + Decimal(n);
  }

  lemma TrimSpace(d: Bytes)
    requires Firm(d)
    ensures TrimBytes(" " + d) == d
  {
  }

  lemma LengthReads(n: nat)
    requires n <= USIZE_MAX
    ensures ParseUsize(TrimBytes(" " + Decimal(n))) == Some(n)
  {
    DecimalReads(n);
    TrimSpace(Decimal(n));
    ParsePrinted(n);
  }

  lemma ReadAfterLength(value: Bytes, others: seq<Bytes>, body: Bytes, rest: Bytes)
    requires ParseUsize(TrimBytes(value)) == Some(|body|) && IsUtf8(body)
    requires forall h :: h in others ==> HeaderShaped(h)
    ensures ReadCounted(value, HeaderBytes(others) + (body + rest)) == (Message(body), rest)
  {
    HeadersSkipped(others, body + rest);
    assert (body + rest)[..|body|] == body && (body + rest)[|body|..] == rest;
  }

  lemma CountedShape(f: Frame, rest: Bytes)
    requires f.Counted?
    ensures f.OnWire() + rest ==
            LengthLine(f.name, |f.body|) + "\r" + "\n" + (HeaderBytes(f.others) + (f.body + rest))
  {
    var (h, d) := (HeaderBytes(f.others), Decimal(|f.body|));
    assert f.name + ": " + d == LengthLine(f.name, |f.body|);
    ConcatAssociates(LengthLine(f.name, |f.body|) + "\r" + "\n", h + f.body, rest);
    ConcatAssociates(h, f.body, rest);
  }

  /** A firm header line decides how the message is read. */
  lemma ReadFirstLine(line: Bytes, tail: Bytes)
    requires Firm(line) && '\n' !in line && IsUtf8(line) && LengthHeader(line).Some?
    ensures ReadMessage(line + "\r" + "\n" + tail) == ReadCounted(LengthHeader(line).value, tail)
  {
    NewlineUtf8(line);
    NewlineUtf8(line + "\r");
    assert '\n' !in line + "\r";
    LineCut(line + "\r", tail);
    TrimBreak(line);
    assert line + "\r" + "\n" + tail != [];
  }

  lemma ReadCountedFrame(f: Frame, rest: Bytes)
    requires f.Valid() && f.Counted?
    ensures ReadMessage(f.OnWire() + rest) == (Message(f.body), rest)
  {
    var line := LengthLine(f.name, |f.body|);
    var tail := HeaderBytes(f.others) + (f.body + rest);
    CountedShape(f, rest);
    LengthLineIsFirm(f.name, |f.body|);
    LengthLineIsHeader(f.name, |f.body|);
    LengthReads(|f.body|);
    ReadAfterLength(" " + Decimal(|f.body|), f.others, f.body, rest);
    ReadFirstLine(line, tail);
  }

  /**
   Any mix of messages in either framing, with blank lines anywhere between them,
   reads back as exactly those messages in order, and then as the end of the stream.
   */
  lemma {:induction false} ReadsBack(frames: seq<Frame>)
    requires forall f :: f in frames ==> f.Valid()
    ensures ReadAll(Wire(frames)) == (Texts(frames), Eof)
  {
    if frames != [] {
      var f, rest := frames[0], Wire(frames[1..]);
      assert f in frames;
      ReadsBack(frames[1..]);
      match f {
        case Line(_, _) => ReadLineFrame(f, rest);
        case Counted(_, _, _) => ReadCountedFrame(f, rest);
        case Blank(_) =>
          ReadBlank(f, rest);
          assert ReadAll(Wire(frames)) == ReadAll(rest);
          assert [] + Texts(frames[1..]) == Texts(frames[1..]);
      }
    }
  }
}
