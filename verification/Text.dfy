/** The string operations of the Go standard library that the model relies on. */
module Text {
  import opened Arithmetic

  /** unicode.IsSpace */
  predicate IsSpace(c: char) {
    var x := c as int;
    || 9 <= x <= 13 || x == 0x20 || x == 0x85 || x == 0xA0 || x == 0x1680 || 0x2000 <= x <= 0x200A
    || x == 0x2028 || x == 0x2029 || x == 0x202F || x == 0x205F || x == 0x3000
  }

  function TrimLeft(s: string): string {
    if s != [] && IsSpace(s[0]) then TrimLeft(s[1..]) else s
  }

  function TrimRight(s: string): string {
    if s != [] && IsSpace(s[|s| - 1]) then TrimRight(s[..|s| - 1]) else s
  }

  /** strings.TrimSpace */
  function Trim(s: string): string {
    TrimRight(TrimLeft(s))
  }

  /** No white space at either end: exactly the strings Trim leaves alone. */
  predicate Trimmed(s: string) {
    s != [] ==> !IsSpace(s[0]) && !IsSpace(s[|s| - 1])
  }

  lemma {:induction false} TrimLeftShape(s: string)
    ensures |TrimLeft(s)| <= |s| && TrimLeft(s) == s[|s| - |TrimLeft(s)|..]
    ensures TrimLeft(s) != [] ==> !IsSpace(TrimLeft(s)[0])
  {
    if s != [] && IsSpace(s[0]) {
      TrimLeftShape(s[1..]);
    }
  }

  lemma {:induction false} TrimRightShape(s: string)
    ensures |TrimRight(s)| <= |s| && TrimRight(s) == s[..|TrimRight(s)|]
    ensures TrimRight(s) != [] ==> !IsSpace(TrimRight(s)[|TrimRight(s)| - 1])
  {
    if s != [] && IsSpace(s[|s| - 1]) {
      TrimRightShape(s[..|s| - 1]);
    }
  }

  lemma TrimIsTrimmed(s: string)
    ensures Trimmed(Trim(s))
    ensures Trimmed(s) <==> Trim(s) == s
    ensures Trim(Trim(s)) == Trim(s)
  {
    TrimLeftShape(s);
    TrimRightShape(TrimLeft(s));
    var t := Trim(s);
    TrimLeftShape(t);
    TrimRightShape(TrimLeft(t));
  }

  /** strings.HasPrefix */
  predicate HasPrefix(s: string, p: string) { p <= s }

  /** Position of the first ":m", as strings.Index. */
  function IndexOfMark(s: string): (i: int)
    ensures i == -1 || 0 <= i < |s| - 1
    ensures i >= 0 ==> s[i] == ':' && s[i + 1] == 'm'
    ensures forall j :: 0 <= j < |s| - 1 && (i < 0 || j < i) ==> !(s[j] == ':' && s[j + 1] == 'm')
  {
    if |s| < 2 then -1
    else if s[0] == ':' && s[1] == 'm' then 0
    else
      var k := IndexOfMark(s[1..]);
      assert forall j :: 1 <= j < |s| - 1 ==> s[j] == s[1..][j - 1] && s[j + 1] == s[1..][j];
      if k < 0 then -1 else k + 1
  }

  /** Position of the last ":m", as strings.LastIndex. */
  function LastIndexOfMark(s: string): (i: int)
    ensures i == -1 || 0 <= i < |s| - 1
    ensures i >= 0 ==> s[i] == ':' && s[i + 1] == 'm'
    ensures forall j :: 0 <= j < |s| - 1 && i < j ==> !(s[j] == ':' && s[j + 1] == 'm')
  {
    if |s| < 2 then -1
    else if s[|s| - 2] == ':' && s[|s| - 1] == 'm' then |s| - 2
    else LastIndexOfMark(s[..|s| - 1])
  }

  predicate IsDigit(c: char) { '0' <= c <= '9' }

  function Digit(d: nat): (c: char)
    requires d < 10
    ensures IsDigit(c) && c as int - '0' as int == d
  {
    ('0' as int + d) as char
  }

  /** strconv.Itoa and %d on a natural number. */
  function Decimal(n: nat): (s: string)
    ensures s != [] && forall i :: 0 <= i < |s| ==> IsDigit(s[i])
  {
    if n < 10 then [Digit(n)] else Decimal(n / 10) + [Digit(n % 10)]
  }

  function DigitsValue(s: string): (n: nat)
    requires forall i :: 0 <= i < |s| ==> IsDigit(s[i])
  {
    if s == [] then 0
    else
      assert IsDigit(s[|s| - 1]);
      10 * DigitsValue(s[..|s| - 1]) + (s[|s| - 1] as int - '0' as int)
  }

  lemma {:induction false} DecimalRoundTrip(n: nat)
    ensures DigitsValue(Decimal(n)) == n
  {
    if n >= 10 {
      var s := Decimal(n);
      assert s[..|s| - 1] == Decimal(n / 10);
      DecimalRoundTrip(n / 10);
    } else {
      assert Decimal(n)[..0] == [];
    }
  }

  /** The longest run of digits at the front. */
  function DigitPrefix(s: string): (d: string)
    ensures d <= s && forall i :: 0 <= i < |d| ==> IsDigit(d[i])
    ensures |d| < |s| ==> !IsDigit(s[|d|])
  {
    if s != [] && IsDigit(s[0]) then [s[0]] + DigitPrefix(s[1..]) else []
  }

  lemma {:induction false} DigitPrefixAll(s: string)
    requires forall i :: 0 <= i < |s| ==> IsDigit(s[i])
    ensures DigitPrefix(s) == s
  {
    var d := DigitPrefix(s);
    assert s[..|d|] == d;
  }

  /** fmt.Sscanf(s, "%d", &v) into an int: optional sign, then digits; None is its error. */
  function ScanInt(s: string): Option<int64> {
    var negative := s != [] && s[0] == '-';
    var body := if s != [] && (s[0] == '-' || s[0] == '+') then s[1..] else s;
    var digits := DigitPrefix(body);
    if digits == [] then None
    else
      var magnitude: int := DigitsValue(digits);
      var v := if negative then -magnitude else magnitude;
      if INT64_MIN <= v <= INT64_MAX then Some(v) else None
  }

  function LowerChar(c: char): char {
    if 'A' <= c <= 'Z' then (c as int + 32) as char else c
  }

  /** strings.ToLower on ASCII. */
  function Lower(s: string): (r: string)
  {
    if s == [] then [] else [LowerChar(s[0])] + Lower(s[1..])
  }
}
