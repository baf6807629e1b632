/** Percent-escaping of text into a safe alphabet, and its decoder. */
module Percent {
  import opened Prelude
  import opened Text

  // ---------------------------------------------------------------- alphabets

  predicate IsAlphanumeric(b: Byte) {
    'A' <= b <= 'Z' || 'a' <= b <= 'z' || '0' <= b <= '9'
  }

  /** The bytes a folder slug keeps. */
  predicate SlugSafe(b: Byte) {
    IsAlphanumeric(b) || b == '_' || b == '.' || b == '-'
  }

  /** The unreserved characters of section 2.3 of RFC 3986. */
  predicate Unreserved(b: Byte) {
    IsAlphanumeric(b) || b == '-' || b == '.' || b == '_' || b == '~'
  }

  /** An alphabet of kept bytes in which an escape cannot be mistaken for a kept byte. */
  ghost predicate Alphabet(safe: Byte -> bool) {
    forall b :: safe(b) ==> IsAlphanumeric(b) || b in "_.-~"
  }

  // ---------------------------------------------------------------- encoding

  function HexDigit(n: nat): Byte
    requires n < 16
  {
    "0123456789ABCDEF"[n]
  }

  function EncodeByte(b: Byte, safe: Byte -> bool): Bytes {
    if safe(b) then [b] else ['%', HexDigit(b as int / 16), HexDigit(b as int % 16)]
  }

  function Encode(s: Bytes, safe: Byte -> bool): Bytes {
    if s == [] then [] else EncodeByte(s[0], safe) + Encode(s[1..], safe)
  }

  lemma {:induction false} EncodeAppend(a: Bytes, b: Bytes, safe: Byte -> bool)
    ensures Encode(a + b, safe) == Encode(a, safe) + Encode(b, safe)
  {
    if a == [] {
      assert a + b == b;
    } else {
      EncodeAppend(a[1..], b, safe);
      var t := a + b;
      assert t[0] == a[0] && t[1..] == a[1..] + b;
      ConcatAssociates(EncodeByte(a[0], safe), Encode(a[1..], safe), Encode(b, safe));
    }
  }

  /** Escape every byte of `s` outside the alphabet, byte by byte. */
  method EncodeBytes(s: Bytes, safe: Byte -> bool) returns (out: Bytes)
    ensures out == Encode(s, safe)
  {
    out := [];
    for i := 0 to |s|
      invariant out == Encode(s[..i], safe)
    {
      EncodeAppend(s[..i], [s[i]], safe);
      assert s[..i + 1] == s[..i] + [s[i]];
      assert Encode([s[i]], safe) == EncodeByte(s[i], safe);
      out := out + EncodeByte(s[i], safe);
    }
    assert s[..|s|] == s;
  }

  method EncodeFolderForDisk(name: Bytes) returns (slug: Bytes)
    ensures slug == Encode(name, SlugSafe)
  {
    slug := EncodeBytes(name, SlugSafe);
  }

  method EncodePathSegment(value: Bytes) returns (encoded: Bytes)
    ensures encoded == Encode(value, Unreserved)
  {
    encoded := EncodeBytes(value, Unreserved);
  }

  /** Nothing but kept bytes, '%' and hex digits comes out. */
  lemma {:induction false} EncodeIsSafe(s: Bytes, safe: Byte -> bool, b: Byte)
    requires Alphabet(safe) && b in Encode(s, safe)
    ensures IsAlphanumeric(b) || b in "_.-~%"
    ensures !safe(b) ==> b == '%' || '0' <= b <= '9' || 'A' <= b <= 'F'
  {
    if b !in EncodeByte(s[0], safe) { EncodeIsSafe(s[1..], safe, b); }
  }

  // ---------------------------------------------------------------- decoding

  datatype DecodeError = Truncated | EscapeNotUtf8 | BadHex | NotUtf8

  datatype Decoded = Text(bytes: Bytes) | Undecodable(error: DecodeError)

  function HexValue(b: Byte): Option<nat> {
    if '0' <= b <= '9' then Some(b as int - '0' as int)
    else if 'A' <= b <= 'F' then Some(b as int - 'A' as int + 10)
    else if 'a' <= b <= 'f' then Some(b as int - 'a' as int + 10)
    else None
  }

  /** Two characters read as a base-16 number: either case, and a leading plus sign, are accepted. */
  function ParseHex(hi: Byte, lo: Byte): (r: Option<Byte>)
  {
    if HexValue(lo).None? then None
    else if hi == '+' then Some(HexValue(lo).value as char)
    else if HexValue(hi).None? then None
    else Some((16 * HexValue(hi).value + HexValue(lo).value) as char)
  }

  function Prepend(b: Byte, rest: Decoded): Decoded {
    match rest
    case Text(bytes) => Text([b] + bytes)
    case Undecodable(error) => Undecodable(error)
  }

  /** The bytes an escaped text stands for. */
  function Unescape(s: Bytes): Decoded {
    if s == [] then Text([])
    else if s[0] != '%' then Prepend(s[0], Unescape(s[1..]))
    else if |s| < 3 then Undecodable(Truncated)
    else if !IsUtf8(s[1..3]) then Undecodable(EscapeNotUtf8)
    else match ParseHex(s[1], s[2])
         case None => Undecodable(BadHex)
         case Some(b) => Prepend(b, Unescape(s[3..]))
  }

  function Decode(s: Bytes): Decoded {
    match Unescape(s)
    case Text(bytes) => if IsUtf8(bytes) then Text(bytes) else Undecodable(NotUtf8)
    case Undecodable(error) => Undecodable(error)
  }

  function After(out: Bytes, rest: Decoded): Decoded {
    match rest
    case Text(bytes) => Text(out + bytes)
    case Undecodable(error) => Undecodable(error)
  }

  method DecodeFolderForDisk(encoded: Bytes) returns (r: Decoded)
    ensures r == Decode(encoded)
  {
    var out: Bytes := [];
    var i := 0;
    while i < |encoded|
      invariant 0 <= i <= |encoded|
      invariant Unescape(encoded) == After(out, Unescape(encoded[i..]))
    {
      var b := encoded[i];
      if b == '%' {
        if i + 2 >= |encoded| { return Undecodable(Truncated); }
        assert encoded[i..][1..3] == encoded[i + 1..i + 3];
        if !IsUtf8(encoded[i + 1..i + 3]) { return Undecodable(EscapeNotUtf8); }
        var v := ParseHex(encoded[i + 1], encoded[i + 2]);
        if v.None? { return Undecodable(BadHex); }
        assert encoded[i..][3..] == encoded[i + 3..];
        out := out + [v.value];
        i := i + 3;
      } else {
        assert encoded[i..][1..] == encoded[i + 1..];
        out := out + [b];
        i := i + 1;
      }
    }
    assert After(out, Unescape(encoded[i..])) == Text(out);
    r := if IsUtf8(out) then Text(out) else Undecodable(NotUtf8);
  }

  // ---------------------------------------------------------------- round trip

  lemma HexDigitReads(n: nat)
    requires n < 16
    ensures HexValue(HexDigit(n)) == Some(n) && HexDigit(n) != '+' && HexDigit(n) < '\U{80}'
  {
  }

  lemma EscapeReadsBack(b: Byte)
    ensures ParseHex(HexDigit(b as int / 16), HexDigit(b as int % 16)) == Some(b)
    ensures IsUtf8([HexDigit(b as int / 16), HexDigit(b as int % 16)])
  {
    HexDigitReads(b as int / 16);
    HexDigitReads(b as int % 16);
    var s := [HexDigit(b as int / 16), HexDigit(b as int % 16)];
    assert s[1..][1..] == [];
  }

  lemma {:induction false} UnescapeEncode(s: Bytes, safe: Byte -> bool)
    requires Alphabet(safe)
    ensures Unescape(Encode(s, safe)) == Text(s)
  {
    if s != [] {
      UnescapeEncode(s[1..], safe);
      var e := Encode(s, safe);
      if safe(s[0]) {
        assert e[0] == s[0] && e[1..] == Encode(s[1..], safe);
      } else {
        EscapeReadsBack(s[0]);
        assert e[1..3] == [HexDigit(s[0] as int / 16), HexDigit(s[0] as int % 16)];
        assert e[3..] == Encode(s[1..], safe);
      }
      assert [s[0]] + s[1..] == s;
    }
  }

  /** Decoding undoes encoding, for every text. */
  lemma DecodeEncode(s: Bytes, safe: Byte -> bool)
    requires Alphabet(safe) && IsUtf8(s)
    ensures Decode(Encode(s, safe)) == Text(s)
  {
    UnescapeEncode(s, safe);
  }

  lemma EncodeInjective(a: Bytes, b: Bytes, safe: Byte -> bool)
    requires Alphabet(safe) && Encode(a, safe) == Encode(b, safe)
    ensures a == b
  {
    UnescapeEncode(a, safe);
    UnescapeEncode(b, safe);
  }

  /** Every kept byte is safe, and every escape is two upper-case digits of a byte that needed it. */
  predicate Canonical(s: Bytes, safe: Byte -> bool) {
    if s == [] then true
    else if s[0] != '%' then safe(s[0]) && Canonical(s[1..], safe)
    else
      && |s| >= 3
      && ParseHex(s[1], s[2]).Some?
      && s[1] != '+' && !('a' <= s[1] <= 'f') && !('a' <= s[2] <= 'f')
      && !safe(ParseHex(s[1], s[2]).value)
      && Canonical(s[3..], safe)
  }

  lemma DigitOfValue(b: Byte)
    requires HexValue(b).Some? && !('a' <= b <= 'f')
    ensures HexValue(b).value < 16 && HexDigit(HexValue(b).value) == b
  {
  }

  lemma UpperCaseOnly(hi: Byte, lo: Byte)
    requires ParseHex(hi, lo).Some? && hi != '+' && !('a' <= hi <= 'f') && !('a' <= lo <= 'f')
    ensures var v := ParseHex(hi, lo).value as int; HexDigit(v / 16) == hi && HexDigit(v % 16) == lo
  {
    DigitOfValue(hi);
    DigitOfValue(lo);
    var (h, l) := (HexValue(hi).value, HexValue(lo).value);
    assert (16 * h + l) / 16 == h && (16 * h + l) % 16 == l;
  }

  lemma CanonicalDigits(b: Byte)
    ensures var (hi, lo) := (HexDigit(b as int / 16), HexDigit(b as int % 16));
            hi != '+' && !('a' <= hi <= 'f') && !('a' <= lo <= 'f')
  {
  }

  /**
   Encoding undoes decoding exactly on canonical slugs: a lower-case or signed
   escape, or an escape or a raw byte the encoder would not have written, decodes
   to a text that encodes differently.
   */
  lemma {:induction false} EncodeUnescapeIffCanonical(s: Bytes, safe: Byte -> bool)
    requires Alphabet(safe) && Unescape(s).Text?
    ensures Encode(Unescape(s).bytes, safe) == s <==> Canonical(s, safe)
  {
    if s == [] {
    } else if s[0] != '%' {
      EncodeUnescapeIffCanonical(s[1..], safe);
      var rest := Unescape(s[1..]).bytes;
      assert Unescape(s).bytes[1..] == rest;
      assert s == [s[0]] + s[1..];
      if safe(s[0]) { assert Encode(Unescape(s).bytes, safe)[1..] == Encode(rest, safe); }
    } else {
      EncodeUnescapeIffCanonical(s[3..], safe);
      var b, rest := ParseHex(s[1], s[2]).value, Unescape(s[3..]).bytes;
      assert Unescape(s).bytes == [b] + rest;
      EscapeReadsBack(b);
      if Canonical(s, safe) { UpperCaseOnly(s[1], s[2]); }
      if !safe(b) { assert Encode([b] + rest, safe)[3..] == Encode(rest, safe); }
      assert ([b] + rest)[1..] == rest;
      assert s == s[..3] + s[3..];
      CanonicalDigits(b);
    }
  }

  /** Concretely: "%2b" and "%+5" decode, and neither is what its decoding encodes to. */
  lemma NotEverySlugIsCanonical()
    ensures Unescape("%2b") == Text("+") && Encode("+", SlugSafe) == "%2B"
    ensures Unescape("%+5") == Text("\U{5}") && Encode("\U{5}", SlugSafe) == "%05"
  {
    assert ParseHex('2', 'b') == Some('+');
    assert ParseHex('+', '5') == Some('\U{5}');
  }
}
