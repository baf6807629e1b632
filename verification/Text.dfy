/** Text as its UTF-8 bytes, one character per byte: well-formedness, decimal numbers, trimming. */
module Text {
  import opened Prelude

  type Byte = c: char | c < '\U{100}' witness 'a'

  type Bytes = seq<Byte>

  // ---------------------------------------------------------------- UTF-8

  predicate Continues(b: Byte) { '\U{80}' <= b <= '\U{BF}' }

  /** Length of the well-formed UTF-8 sequence at the head of `s`, or 0. */
  function HeadLength(s: Bytes): nat {
    if s == [] then 0
    else if s[0] < '\U{80}' then 1
    else if '\U{C2}' <= s[0] <= '\U{DF}' then (if |s| >= 2 && Continues(s[1]) then 2 else 0)
    else if '\U{E0}' <= s[0] <= '\U{EF}' then
      (if |s| >= 3 && Continues(s[1]) && Continues(s[2])
          && (s[0] == '\U{E0}' ==> s[1] >= '\U{A0}') && (s[0] == '\U{ED}' ==> s[1] < '\U{A0}') then 3 else 0)
    else if '\U{F0}' <= s[0] <= '\U{F4}' then
      (if |s| >= 4 && Continues(s[1]) && Continues(s[2]) && Continues(s[3])
          && (s[0] == '\U{F0}' ==> s[1] >= '\U{90}') && (s[0] == '\U{F4}' ==> s[1] < '\U{90}') then 4 else 0)
    else 0
  }

  predicate IsUtf8(s: Bytes) {
    s == [] || (0 < HeadLength(s) <= |s| && IsUtf8(s[HeadLength(s)..]))
  }

  lemma HeadIsLocal(a: Bytes, b: Bytes)
    requires 0 < HeadLength(a)
    ensures HeadLength(a + b) == HeadLength(a)
  {
  }

  lemma {:induction false} Utf8Append(a: Bytes, b: Bytes)
    requires IsUtf8(a) && IsUtf8(b)
    ensures IsUtf8(a + b)
    decreases |a|
  {
    if a == [] {
      assert a + b == b;
    } else {
      var n := HeadLength(a);
      assert 0 < n <= |a|;
      assert (a + b)[n..] == a[n..] + b;
      HeadIsLocal(a, b);
      Utf8Append(a[n..], b);
    }
  }

  lemma {:induction false} AsciiIsUtf8(s: Bytes)
    requires forall i :: 0 <= i < |s| ==> s[i] < '\U{80}'
    ensures IsUtf8(s)
  {
    if s != [] {
      assert HeadLength(s) == 1;
      AsciiIsUtf8(s[1..]);
    }
  }

  // ---------------------------------------------------------------- decimal

  function Digit(n: nat): Byte
    requires n < 10
  {
    '0' + n as char
  }

  /** A number printed in base ten. */
  function Decimal(n: nat): Bytes {
    if n < 10 then [Digit(n)] else Decimal(n / 10) + [Digit(n % 10)]
  }

  function DecimalValue(s: Bytes): int {
    if s == [] then 0 else 10 * DecimalValue(s[..|s| - 1]) + (s[|s| - 1] as int - '0' as int)
  }

  predicate AllDigits(s: Bytes) {
    forall i :: 0 <= i < |s| ==> '0' <= s[i] <= '9'
  }

  lemma {:induction false} DecimalReads(n: nat)
    ensures DecimalValue(Decimal(n)) == n
    ensures AllDigits(Decimal(n))
  {
    if n < 10 {
      assert [Digit(n)][..0] == [];
    } else {
      DecimalReads(n / 10);
      assert Decimal(n)[..|Decimal(n)| - 1] == Decimal(n / 10);
    }
  }

  lemma DecimalInjective(m: nat, n: nat)
    requires Decimal(m) == Decimal(n)
    ensures m == n
  {
    DecimalReads(m);
    DecimalReads(n);
  }

  const USIZE_MAX: nat := 0xFFFF_FFFF_FFFF_FFFF

  lemma {:induction false} ValueIsNatural(s: Bytes)
    requires AllDigits(s)
    ensures DecimalValue(s) >= 0
  {
    if s != [] {
      ValueIsNatural(s[..|s| - 1]);
    }
  }

  /** A non-negative machine number: an optional plus sign, then at least one digit, in range. */
  function ParseUsize(s: Bytes): Option<nat> {
    var digits := if s != [] && s[0] == '+' then s[1..] else s;
    if digits == [] || !AllDigits(digits) then None
    else
      ValueIsNatural(digits);
      if DecimalValue(digits) > USIZE_MAX then None else Some(DecimalValue(digits))
  }

  lemma ParsePrinted(n: nat)
    requires n <= USIZE_MAX
    ensures ParseUsize(Decimal(n)) == Some(n)
  {
    DecimalReads(n);
  }

  // ---------------------------------------------------------------- trimming

  /** The white-space characters of three bytes. */
  predicate WideSpace(a: Byte, b: Byte, c: Byte) {
    || (a == '\U{E1}' && b == '\U{9A}' && c == '\U{80}')
    || (a == '\U{E2}' && b == '\U{80}' && ('\U{80}' <= c <= '\U{8A}' || '\U{A8}' <= c <= '\U{A9}' || c == '\U{AF}'))
    || (a == '\U{E2}' && b == '\U{81}' && c == '\U{9F}')
    || (a == '\U{E3}' && b == '\U{80}' && c == '\U{80}')
  }

  /** Length of the white-space character `s` begins with, or 0. */
  function WhiteHead(s: Bytes): (n: nat)
    ensures n <= |s|
  {
    if s == [] then 0
    else if '\t' <= s[0] <= '\r' || s[0] == ' ' then 1
    else if |s| >= 2 && s[0] == '\U{C2}' && (s[1] == '\U{85}' || s[1] == '\U{A0}') then 2
    else if |s| >= 3 && WideSpace(s[0], s[1], s[2]) then 3
    else 0
  }

  /** Length of the white-space character `s` ends with, or 0. */
  function WhiteTail(s: Bytes): (n: nat)
    ensures n <= |s|
  {
    var n := |s|;
    if s == [] then 0
    else if '\t' <= s[n - 1] <= '\r' || s[n - 1] == ' ' then 1
    else if n >= 2 && s[n - 2] == '\U{C2}' && (s[n - 1] == '\U{85}' || s[n - 1] == '\U{A0}') then 2
    else if n >= 3 && WideSpace(s[n - 3], s[n - 2], s[n - 1]) then 3
    else 0
  }

  /** Drop white space from both ends. */
  function TrimBytes(s: Bytes): Bytes
    decreases |s|
  {
    if WhiteHead(s) > 0 then TrimBytes(s[WhiteHead(s)..])
    else if WhiteTail(s) > 0 then TrimBytes(s[..|s| - WhiteTail(s)])
    else s
  }
}
