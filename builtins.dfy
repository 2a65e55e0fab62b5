/** Models of the Python built-ins the calculator relies on: integer
    formatting (`str`, f-strings), parsing (`int`), floor modulo (`%`),
    substring membership (`in`), `str.join` and `str.capitalize`. */
module Builtins {

  /** The outcome of a Python expression that may raise `ValueError`. */
  datatype Result<T> = Ok(value: T) | ValueError

  // ---------------------------------------------------------------
  // Floor modulo
  // ---------------------------------------------------------------

  /** Python's `a % d`: the remainder has the sign of the divisor.
      Dafny's `%` is Euclidean, so the two agree only for `d > 0`. */
  function PyMod(a: int, d: int): (r: int)
    requires d != 0
    ensures d > 0 ==> 0 <= r < d && r == a % d
    ensures d < 0 ==> d < r <= 0
  {
    if d > 0 then a % d else -((-a) % (-d))
  }

  // ---------------------------------------------------------------
  // Decimal formatting and parsing
  // ---------------------------------------------------------------

  function Pow10(k: nat): (p: nat)
    ensures p >= 1
  {
    if k == 0 then 1 else 10 * Pow10(k - 1)
  }

  predicate IsDigit(c: char) {
    '0' <= c <= '9'
  }

  predicate AllDigits(s: string) {
    forall i :: 0 <= i < |s| ==> IsDigit(s[i])
  }

  function DigitChar(d: nat): (c: char)
    requires d < 10
    ensures IsDigit(c)
  {
    ('0' as int + d) as char
  }

  function DigitValue(c: char): (d: nat)
    requires IsDigit(c)
    ensures d < 10 && DigitChar(d) == c
  {
    c as int - '0' as int
  }

  /** The decimal digits of `n`, most significant first, without leading zeros. */
  function Digits(n: nat): (s: string)
    ensures |s| > 0 && AllDigits(s)
    ensures n > 0 ==> s[0] != '0'
  {
    if n < 10 then [DigitChar(n)] else Digits(n / 10) + [DigitChar(n % 10)]
  }

  /** Python's `str(n)` (and `f"{n}"`) for an `int`. */
  function Str(n: int): (s: string)
    ensures |s| > 0
    ensures n >= 0 <==> AllDigits(s)
    ensures n < 0 <==> s[0] == '-'
  {
    if n < 0 then
      var s := "-" + Digits(-n);
      assert !IsDigit(s[0]);
      s
    else
      Digits(n)
  }

  /** The number a string of decimal digits denotes (leading zeros allowed). */
  function DigitsValue(s: string): nat
    requires AllDigits(s)
  {
    if s == [] then 0 else DigitsValue(s[..|s| - 1]) * 10 + DigitValue(s[|s| - 1])
  }

  /** Python's `int(s)` with base 10 on the strings `str` can produce: an
      optional sign followed by one or more ASCII digits. Anything else
      raises `ValueError`. */
  function ParseInt(s: string): Result<int> {
    if |s| > 0 && (s[0] == '-' || s[0] == '+') then
      var body := s[1..];
      if |body| > 0 && AllDigits(body) then
        var v: int := DigitsValue(body);
        Ok(if s[0] == '-' then -v else v)
      else
        ValueError
    else if |s| > 0 && AllDigits(s) then
      Ok(DigitsValue(s))
    else
      ValueError
  }

  lemma {:induction false} DigitsValueOfDigits(n: nat)
    ensures DigitsValue(Digits(n)) == n
  {
    if n >= 10 {
      var s := Digits(n);
      assert s[..|s| - 1] == Digits(n / 10);
      DigitsValueOfDigits(n / 10);
      assert DigitValue(s[|s| - 1]) == n % 10;
    }
  }

  lemma AllDigitsConcat(x: string, y: string)
    requires AllDigits(x) && AllDigits(y)
    ensures AllDigits(x + y)
  {
  }

  lemma ShiftStep(a: int, b: int, p: int, c: int)
    ensures (a * p + b) * 10 + c == a * (p * 10) + (b * 10 + c)
  {
  }

  lemma NegShift(a: int, b: int, p: int)
    ensures -((-a) * p + b) == a * p - b
  {
  }

  /** Appending a digit multiplies by ten and adds the digit's value. */
  lemma DigitsValueSnoc(s: string, c: char)
    requires AllDigits(s) && IsDigit(c)
    ensures AllDigits(s + [c])
    ensures DigitsValue(s + [c]) == DigitsValue(s) * 10 + DigitValue(c)
  {
    var sc := s + [c];
    assert sc[..|sc| - 1] == s;
  }

  /** Splitting the last digit off `y`, alone and after `x`. */
  lemma SplitLastDigit(x: string, y: string)
    requires AllDigits(x) && AllDigits(y) && |y| > 0
    ensures AllDigits(y[..|y| - 1])
    ensures DigitsValue(x + y) == DigitsValue(x + y[..|y| - 1]) * 10 + DigitValue(y[|y| - 1])
    ensures DigitsValue(y) == DigitsValue(y[..|y| - 1]) * 10 + DigitValue(y[|y| - 1])
    ensures Pow10(|y|) == Pow10(|y| - 1) * 10
  {
    var y', last := y[..|y| - 1], y[|y| - 1];
    assert x + y == (x + y') + [last];
    DigitsValueSnoc(x + y', last);
    assert y == y' + [last];
    DigitsValueSnoc(y', last);
  }

  /** The arithmetic of one step of `DigitsValueAppend`, on plain integers. */
  lemma ShiftCombine(xy: int, xy': int, vy: int, a: int, b: int, p: int, q: int, c: int)
    requires xy' == a * p + b && xy == xy' * 10 + c && vy == b * 10 + c && q == p * 10
    ensures xy == a * q + vy
  {
    ShiftStep(a, b, p, c);
  }

  /** Reading two digit strings one after the other shifts the first by
      the length of the second. */
  lemma {:induction false} DigitsValueAppend(x: string, y: string)
    requires AllDigits(x) && AllDigits(y)
    ensures AllDigits(x + y)
    ensures DigitsValue(x + y) == DigitsValue(x) * Pow10(|y|) + DigitsValue(y)
  {
    AllDigitsConcat(x, y);
    if y == [] {
      assert x + y == x;
    } else {
      var y' := y[..|y| - 1];
      SplitLastDigit(x, y);
      DigitsValueAppend(x, y');
      ShiftCombine(DigitsValue(x + y), DigitsValue(x + y'), DigitsValue(y), DigitsValue(x),
                   DigitsValue(y'), Pow10(|y'|), Pow10(|y|), DigitValue(y[|y| - 1]));
    }
  }

  /** `int(str(n)) == n`. */
  lemma ParseIntOfStr(n: int)
    ensures ParseInt(Str(n)) == Ok(n)
  {
    if n < 0 {
      assert Str(n) == "-" + Digits(-n);
      ParseNegative(Digits(-n));
      DigitsValueOfDigits(-n);
    } else {
      var s := Str(n);
      assert s == Digits(n) && IsDigit(s[0]);
      DigitsValueOfDigits(n);
    }
  }

  /** Python's `int(f"{a}{b}")`: the decimal strings of `a` and `b` joined
      and parsed back. For a non-negative `b` the result is `a` shifted left
      by the length of `b`'s decimal string, plus (or, for a negative `a`,
      minus) `b`; a negative `b` puts a minus sign inside the string, which
      `int` rejects. */
  function ConcatDecimal(a: int, b: int): (r: Result<int>)
    ensures b >= 0 && a >= 0 ==> r == Ok(a * Pow10(|Str(b)|) + b)
    ensures b >= 0 && a < 0 ==> r == Ok(a * Pow10(|Str(b)|) - b)
    ensures b < 0 ==> r == ValueError
  {
    var s := Str(a) + Str(b);
    ConcatDecimalFacts(a, b);
    ParseInt(s)
  }

  lemma ConcatDecimalFacts(a: int, b: int)
    ensures b >= 0 && a >= 0 ==> ParseInt(Str(a) + Str(b)) == Ok(a * Pow10(|Str(b)|) + b)
    ensures b >= 0 && a < 0 ==> ParseInt(Str(a) + Str(b)) == Ok(a * Pow10(|Str(b)|) - b)
    ensures b < 0 ==> ParseInt(Str(a) + Str(b)) == ValueError
  {
    if b < 0 {
      ConcatNegativeSecond(a, b);
    } else if a >= 0 {
      ConcatNonNegative(a, b);
    } else {
      ConcatNegativeFirst(a, b);
    }
  }

  lemma ConcatNonNegative(a: nat, b: nat)
    ensures ParseInt(Str(a) + Str(b)) == Ok(a * Pow10(|Str(b)|) + b)
  {
    var s := Str(a) + Str(b);
    DigitsValueOfDigits(a);
    DigitsValueOfDigits(b);
    DigitsValueAppend(Digits(a), Digits(b));
    assert s[0] == Digits(a)[0];
  }

  lemma ParseNegative(d: string)
    requires |d| > 0 && AllDigits(d)
    ensures ParseInt("-" + d) == Ok(-(DigitsValue(d) as int))
  {
  }

  lemma ConcatNegativeFirst(a: int, b: nat)
    requires a < 0
    ensures ParseInt(Str(a) + Str(b)) == Ok(a * Pow10(|Str(b)|) - b)
  {
    var x: nat := -a;
    var d := Digits(x) + Digits(b);
    assert Str(a) + Str(b) == "-" + d;
    DigitsValueOfDigits(x);
    DigitsValueOfDigits(b);
    DigitsValueAppend(Digits(x), Digits(b));
    ParseNegative(d);
    var p := Pow10(|Str(b)|);
    assert DigitsValue(d) == x * p + b;
    NegShift(a, b, p);
  }

  lemma ConcatNegativeSecond(a: int, b: int)
    requires b < 0
    ensures ParseInt(Str(a) + Str(b)) == ValueError
  {
    var s := Str(a) + Str(b);
    var k := |Str(a)|;
    assert s[k] == '-';
    if a >= 0 {
      assert s[0] == Str(a)[0];
      assert !IsDigit(s[k]);
    } else {
      assert s[1..][k - 1] == '-';
    }
  }

  // ---------------------------------------------------------------
  // Substrings, join, capitalize
  // ---------------------------------------------------------------

  predicate OccursAt(text: string, pat: string, i: nat) {
    i + |pat| <= |text| && text[i..i + |pat|] == pat
  }

  /** Python's `pat in text` for two strings. */
  predicate Contains(text: string, pat: string) {
    exists i: nat | i <= |text| :: OccursAt(text, pat, i)
  }

  /** A text that contains a pattern also contains each prefix of it. */
  lemma ContainsPrefix(text: string, pat: string, pre: string)
    requires Contains(text, pat) && pre <= pat
    ensures Contains(text, pre)
  {
    var i: nat :| i <= |text| && OccursAt(text, pat, i);
    assert i + |pat| <= |text| && |pre| <= |pat|;
    assert text[i..i + |pre|] == pat[..|pre|];
    assert OccursAt(text, pre, i);
  }

  /** Python's `sep.join(xs)`. */
  function Join(xs: seq<string>, sep: string): string
  {
    if |xs| == 0 then "" else if |xs| == 1 then xs[0] else xs[0] + sep + Join(xs[1..], sep)
  }

  function TotalLength(xs: seq<string>): nat
  {
    if xs == [] then 0 else |xs[0]| + TotalLength(xs[1..])
  }

  /** The joined string holds every part and one separator between neighbours. */
  lemma {:induction false} JoinLength(xs: seq<string>, sep: string)
    requires |xs| > 0
    ensures |Join(xs, sep)| == TotalLength(xs) + (|xs| - 1) * |sep|
  {
    if |xs| > 1 {
      JoinLength(xs[1..], sep);
    }
  }

  /** A pattern at the start of a text is contained in it. */
  lemma ContainsAtStart(pat: string, rest: string)
    ensures Contains(pat + rest, pat)
  {
    assert (pat + rest)[..|pat|] == pat;
    assert OccursAt(pat + rest, pat, 0);
  }

  /** A pattern contained in a text is contained in any extension of it
      at the front. */
  lemma ContainsInSuffix(pre: string, text: string, pat: string)
    requires Contains(text, pat)
    ensures Contains(pre + text, pat)
  {
    var i: nat :| i <= |text| && OccursAt(text, pat, i);
    assert (pre + text)[|pre| + i..|pre| + i + |pat|] == text[i..i + |pat|];
    assert OccursAt(pre + text, pat, |pre| + i);
  }

  /** Every part occurs in the joined string. */
  lemma {:induction false} JoinContainsPart(xs: seq<string>, sep: string, k: nat)
    requires k < |xs|
    ensures Contains(Join(xs, sep), xs[k])
  {
    if |xs| == 1 {
      ContainsAtStart(xs[0], "");
      assert xs[0] + "" == xs[0];
    } else if k == 0 {
      var rest := sep + Join(xs[1..], sep);
      ContainsAtStart(xs[0], rest);
      assert Join(xs, sep) == xs[0] + rest;
    } else {
      JoinContainsPart(xs[1..], sep, k - 1);
      assert xs[1..][k - 1] == xs[k];
      ContainsInSuffix(xs[0] + sep, Join(xs[1..], sep), xs[k]);
    }
  }

  function Upper(c: char): char {
    if 'a' <= c <= 'z' then (c as int - 32) as char else c
  }

  function Lower(c: char): char {
    if 'A' <= c <= 'Z' then (c as int + 32) as char else c
  }

  /** Python's `s.capitalize()`: the first character upper case, the rest
      lower case (case mapping for ASCII letters only). */
  function Capitalize(s: string): (r: string)
    ensures |r| == |s|
  {
    if s == [] then [] else [Upper(s[0])] + seq(|s| - 1, i requires 0 <= i < |s| - 1 => Lower(s[i + 1]))
  }
}
