/** Decimal text of integers: the `%d` verb of `fmt.Sprintf` and
    `strconv.ParseInt(s, 10, 64)`, with the facts the document names and the
    subsession dedup rely on: parsing undoes formatting, and formatting is
    injective and never produces an underscore. */
module Decimal {

  import opened Failures

  const MinInt64: int := -0x8000_0000_0000_0000
  const MaxInt64: int := 0x7fff_ffff_ffff_ffff

  predicate IsInt64(n: int) { MinInt64 <= n <= MaxInt64 }

  predicate IsDigit(c: char) { '0' <= c <= '9' }

  predicate AllDigits(s: string) { forall i :: 0 <= i < |s| ==> IsDigit(s[i]) }

  function DigitChar(d: nat): (c: char)
    requires d < 10
    ensures IsDigit(c)
  {
    ('0' as int + d) as char
  }

  function DigitValue(c: char): (d: nat)
    requires IsDigit(c)
    ensures d < 10 && DigitChar(d) == c
  {
    c as int - '0' as int
  }

  /** The digits of `n`, most significant first, without leading zeros. */
  function Digits(n: nat): (s: string)
    ensures |s| > 0 && AllDigits(s)
    ensures n < 10 <==> |s| == 1
  {
    if n < 10 then [DigitChar(n)] else Digits(n / 10) + [DigitChar(n % 10)]
  }

  /** The number a non-empty run of decimal digits denotes. */
  function DigitsValue(s: string): nat
    requires AllDigits(s)
  {
    if s == [] then 0 else DigitsValue(s[..|s| - 1]) * 10 + DigitValue(s[|s| - 1])
  }

  /** `fmt.Sprintf("%d", n)`. */
  function Format(n: int): (s: string)
    ensures |s| > 0
    ensures '_' !in s
    ensures n >= 0 <==> IsDigit(s[0])
  {
    if n < 0 then "-" + Digits(-n) else Digits(n)
  }

  /** `strconv.ParseInt(s, 10, 64)`: an optional sign, then one or more ASCII
      digits, and the value must fit in 64 bits; `None` is the `*NumError`. */
  function ParseInt(s: string): (r: Option<int>)
    ensures r.Some? ==> IsInt64(r.value)
    ensures s == [] ==> r.None?
  {
    if s == [] then None
    else
      var neg := s[0] == '-';
      var digits := if s[0] == '-' || s[0] == '+' then s[1..] else s;
      if digits == [] || !AllDigits(digits) then None
      else
        var u := DigitsValue(digits);
        var v: int := u;
        if neg then (if v <= -MinInt64 then Some(-v) else None)
        else (if u <= MaxInt64 then Some(u) else None)
  }

  lemma {:induction false} DigitsValueOfDigits(n: nat)
    ensures DigitsValue(Digits(n)) == n
  {
    if n >= 10 {
      var s := Digits(n);
      assert s[..|s| - 1] == Digits(n / 10);
      DigitsValueOfDigits(n / 10);
    }
  }

  /** Parsing the decimal text of any 64-bit integer gives the integer back. */
  lemma ParseFormat(n: int)
    requires IsInt64(n)
    ensures ParseInt(Format(n)) == Some(n)
  {
    var s := Format(n);
    if n < 0 {
      var d := Digits(-n);
      assert s == "-" + d && s[0] == '-' && s[1..] == d;
      DigitsValueOfDigits(-n);
    } else {
      var d := Digits(n);
      assert s == d && IsDigit(s[0]);
      DigitsValueOfDigits(n);
    }
  }

  /** Distinct naturals have distinct digit strings. */
  lemma DigitsInjective(x: nat, y: nat)
    requires Digits(x) == Digits(y)
    ensures x == y
  {
    DigitsValueOfDigits(x);
    DigitsValueOfDigits(y);
  }

  /** Distinct integers have distinct decimal texts. */
  lemma FormatInjective(a: int, b: int)
    requires Format(a) == Format(b)
    ensures a == b
  {
    if a < 0 && b < 0 {
      assert Format(a) == "-" + Digits(-a) && Format(b) == "-" + Digits(-b);
      assert Digits(-a) == Format(a)[1..] && Digits(-b) == Format(b)[1..];
      DigitsInjective(-a, -b);
    } else if a >= 0 && b >= 0 {
      assert Format(a) == Digits(a) && Format(b) == Digits(b);
      DigitsInjective(a, b);
    }
  }

  /** A common prefix cancels. */
  lemma CancelPrefix(p: string, x: string, y: string)
    requires p + x == p + y
    ensures x == y
  {
    assert x == (p + x)[|p|..];
  }

  /** The four fields of `p + (x + (q + y))` sit where their lengths put them. */
  lemma FieldsOfJoin(p: string, x: string, q: string, y: string)
    ensures var n := p + (x + (q + y));
            && n[..|p|] == p && n[|p|..|p| + |x|] == x
            && n[|p| + |x|..|n| - |y|] == q && n[|n| - |y|..] == y
  {
    var n := p + (x + (q + y));
    assert n[|p|..] == x + (q + y);
    assert n[|p| + |x|..] == q + y;
  }

  /** The fields of `p + (x + ([c] + (y + ([c] + z))))` sit where their
      lengths put them. */
  lemma FieldsOfTripleJoin(p: string, x: string, c: char, y: string, z: string)
    ensures var n := p + (x + ([c] + (y + ([c] + z))));
            && |n| == |p| + |x| + 1 + |y| + 1 + |z|
            && n[..|p|] == p && n[|p|..|p| + |x|] == x && n[|p| + |x|] == c
            && n[|p| + |x| + 1..|n| - |z| - 1] == y && n[|n| - |z| - 1] == c && n[|n| - |z|..] == z
  {
    var n := p + (x + ([c] + (y + ([c] + z))));
    FieldsOfJoin(p, x, [c], y + ([c] + z));
    assert n[|p| + |x| + 1..] == y + ([c] + z);
  }

  /** When the separator occurs in neither left part, the two split points
      coincide: `x + ([c] + y)` determines `x` and `y`. */
  lemma SplitAtSeparator(x: string, y: string, x': string, y': string, c: char)
    requires c !in x && c !in x'
    requires x + ([c] + y) == x' + ([c] + y')
    ensures x == x' && y == y'
  {
    var s := x + ([c] + y);
    assert s[|x|] == c && s[|x'|] == c;
    assert |x| == |x'|;
    assert x == s[..|x|] == x';
    assert y == s[|x| + 1..] == y';
  }
}
