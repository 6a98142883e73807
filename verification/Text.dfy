/** The string operations of the source language that the kernel relies on:
    whitespace stripping, prefix tests, decimal printing and integer parsing. */
module Text {

  datatype Option<+T> = None | Some(value: T)

  /** The whitespace that `str.strip` and `str.split` recognise. */
  predicate IsSpace(c: char) {
    var n := c as int;
    || 9 <= n <= 13
    || 28 <= n <= 32
    || n == 0x85 || n == 0xA0 || n == 0x1680
    || 0x2000 <= n <= 0x200A
    || n == 0x2028 || n == 0x2029 || n == 0x202F || n == 0x205F || n == 0x3000
  }

  function Rstrip(s: string): (r: string)
    ensures r <= s
    ensures r != [] ==> !IsSpace(r[|r| - 1])
    ensures forall i :: |r| <= i < |s| ==> IsSpace(s[i])
  {
    if s == [] || !IsSpace(s[|s| - 1]) then s else Rstrip(s[..|s| - 1])
  }

  /** `str.strip()`. */
  function Strip(s: string): (r: string)
    ensures r != [] ==> !IsSpace(r[0]) && !IsSpace(r[|r| - 1])
  {
    if s == [] then []
    else if IsSpace(s[0]) then Strip(s[1..])
    else if IsSpace(s[|s| - 1]) then Strip(s[..|s| - 1])
    else s
  }

  /** `str.lower()` on the letters of ASCII. */
  function Lower(s: string): string {
    seq(|s|, i requires 0 <= i < |s| => if 'A' <= s[i] <= 'Z' then s[i] - 'A' + 'a' else s[i])
  }

  lemma StripTwice(s: string)
    ensures Strip(Strip(s)) == Strip(s)
  {
  }

  function Join(sep: string, parts: seq<string>): string {
    if parts == [] then ""
    else if |parts| == 1 then parts[0]
    else parts[0] + sep + Join(sep, parts[1..])
  }

  // ----- decimal numerals -----

  predicate IsDigit(c: char) { '0' <= c <= '9' }

  function DigitChar(d: int): char
    requires 0 <= d < 10
  {
    '0' + (d as char)
  }

  function DecimalNat(n: nat): (s: string)
    ensures s != []
    ensures forall c :: c in s ==> IsDigit(c)
  {
    if n < 10 then [DigitChar(n)] else DecimalNat(n / 10) + [DigitChar(n % 10)]
  }

  /** `str(n)` for an integer. */
  function Decimal(n: int): (s: string)
    ensures s != []
    ensures forall c :: c in s ==> c == '-' || IsDigit(c)
  {
    if n < 0 then "-" + DecimalNat(-n) else DecimalNat(n)
  }

  /** A run of digits in which single underscores may separate digits. */
  function ParseDigits(s: string): (r: Option<int>)
    ensures r.Some? ==> r.value >= 0
  {
    if s == [] || !IsDigit(s[|s| - 1]) then None
    else
      var d := (s[|s| - 1] - '0') as int;
      var rest := s[..|s| - 1];
      if rest == [] then Some(d)
      else
        var body := if rest[|rest| - 1] == '_' then rest[..|rest| - 1] else rest;
        match ParseDigits(body)
        case None => None
        case Some(v) => Some(10 * v + d)
  }

  /** `int(text)`: surrounding whitespace, one optional sign, then digits. */
  function ParseInt(s: string): Option<int> {
    var t := Strip(s);
    if t == [] then None
    else if t[0] == '-' then
      match ParseDigits(t[1..])
      case None => None
      case Some(v) => Some(-v)
    else if t[0] == '+' then
      match ParseDigits(t[1..])
      case None => None
      case Some(v) => Some(v)
    else
      match ParseDigits(t)
      case None => None
      case Some(v) => Some(v)
  }

  lemma {:induction false} ParseDigitsOfDecimal(n: nat)
    ensures ParseDigits(DecimalNat(n)) == Some(n)
  {
    var s := DecimalNat(n);
    if n >= 10 {
      ParseDigitsOfDecimal(n / 10);
      var rest := DecimalNat(n / 10);
      assert s[..|s| - 1] == rest;
      assert IsDigit(rest[|rest| - 1]);
    }
  }

  lemma DecimalIsStripped(n: int)
    ensures Strip(Decimal(n)) == Decimal(n)
  {
    var s := Decimal(n);
    assert s[0] in s && s[|s| - 1] in s;
  }

  /** `int(str(n)) == n` for every integer. */
  lemma ParseIntOfDecimal(n: int)
    ensures ParseInt(Decimal(n)) == Some(n)
  {
    DecimalIsStripped(n);
    if n < 0 {
      NegativeDecimal(n);
      ParseDigitsOfDecimal(-n);
    } else {
      assert Decimal(n)[0] in DecimalNat(n);
      ParseDigitsOfDecimal(n);
    }
  }

  lemma NegativeDecimal(n: int)
    requires n < 0
    ensures Decimal(n)[0] == '-' && Decimal(n)[1..] == DecimalNat(-n)
  {
  }
}
