/** The handful of Python built-ins the backend relies on, stated over
    Dafny values: `int()` of a string, `str()` of an integer, `str.strip()`,
    `round()`, truncating `int()` of a float and list slicing `l[k:]`.
    Characters are classified over ASCII only. */
module Builtins {

  datatype Option<+T> = None | Some(value: T)

  // ---------------------------------------------------------------------
  // Characters
  // ---------------------------------------------------------------------

  /** ASCII whitespace as `str.isspace` sees it: space, \t, \n, \v, \f, \r
      and the four separators \x1c..\x1f. */
  predicate IsSpace(c: char) {
    c == ' ' || 9 <= c as int <= 13 || 28 <= c as int <= 31
  }

  predicate IsDigit(c: char) { '0' <= c <= '9' }

  /** `str.isalnum` restricted to ASCII letters and digits. */
  predicate IsAlnum(c: char) { IsDigit(c) || 'a' <= c <= 'z' || 'A' <= c <= 'Z' }

  // ---------------------------------------------------------------------
  // str.strip()
  // ---------------------------------------------------------------------

  function StripLeft(s: string): (r: string)
    ensures |r| <= |s| && r == s[|s| - |r|..]
    ensures r != [] ==> !IsSpace(r[0])
    ensures forall i :: 0 <= i < |s| - |r| ==> IsSpace(s[i])
  {
    if s != [] && IsSpace(s[0]) then
      var r := StripLeft(s[1..]);
      assert s[1..][|s| - 1 - |r|..] == s[|s| - |r|..];
      assert forall i :: 1 <= i < |s| - |r| ==> s[i] == s[1..][i - 1];
      r
    else s
  }

  function StripRight(s: string): (r: string)
    ensures |r| <= |s| && r == s[..|r|]
    ensures r != [] ==> !IsSpace(r[|r| - 1])
    ensures forall i :: |r| <= i < |s| ==> IsSpace(s[i])
  {
    if s != [] && IsSpace(s[|s| - 1]) then StripRight(s[..|s| - 1]) else s
  }

  /** `s.strip()`: the longest slice of `s` that neither starts nor ends with whitespace,
      obtained by removing whitespace only. */
  function Strip(s: string): (r: string)
    ensures exists a, b :: 0 <= a <= b <= |s| && r == s[a..b]
    ensures r != [] ==> !IsSpace(r[0]) && !IsSpace(r[|r| - 1])
    ensures s != [] && !IsSpace(s[0]) && !IsSpace(s[|s| - 1]) ==> r == s
    ensures (forall i :: 0 <= i < |s| ==> IsSpace(s[i])) ==> r == []
  {
    var l := StripLeft(s);
    var r := StripRight(l);
    assert r == s[|s| - |l|..][..|r|] == s[|s| - |l|..|s| - |l| + |r|];
    r
  }

  /** Python's `t in s` for strings: `t` occurs in `s` as a contiguous piece. */
  predicate Contains(s: string, t: string)
    decreases |s|
  {
    |t| <= |s| && (s[..|t|] == t || Contains(s[1..], t))
  }

  // ---------------------------------------------------------------------
  // str() of an integer and int() of a string
  // ---------------------------------------------------------------------

  function DigitChar(d: nat): (c: char)
    requires d < 10
    ensures IsDigit(c) && c as int - '0' as int == d
  {
    ('0' as int + d) as char
  }

  predicate AllDigits(s: string) { forall i :: 0 <= i < |s| ==> IsDigit(s[i]) }

  /** Decimal rendering of a natural number, most significant digit first. */
  function NatToString(n: nat): (r: string)
    ensures r != [] && AllDigits(r)
  {
    if n < 10 then [DigitChar(n)] else NatToString(n / 10) + [DigitChar(n % 10)]
  }

  /** `str(n)` for a Python int. */
  function IntToString(n: int): (r: string)
    ensures r != [] && (r[0] == '-' || IsDigit(r[0])) && IsDigit(r[|r| - 1])
    ensures n >= 0 <==> r[0] != '-'
  {
    if n < 0 then "-" + NatToString(-n) else NatToString(n)
  }

  /** The number a string of decimal digits denotes. */
  function DigitsValue(s: string): nat
    requires AllDigits(s)
  {
    if s == [] then 0 else DigitsValue(s[..|s| - 1]) * 10 + (s[|s| - 1] as int - '0' as int)
  }

  /** Digits with single underscores between them, as `int()` accepts ("1_000"). */
  predicate WellFormedDigits(s: string) {
    && s != []
    && IsDigit(s[0]) && IsDigit(s[|s| - 1])
    && (forall i :: 0 <= i < |s| ==> IsDigit(s[i]) || s[i] == '_')
    && (forall i :: 0 <= i < |s| - 1 ==> !(s[i] == '_' && s[i + 1] == '_'))
  }

  function RemoveUnderscores(s: string): (r: string)
    requires forall i :: 0 <= i < |s| ==> IsDigit(s[i]) || s[i] == '_'
    ensures AllDigits(r) && |r| <= |s|
    ensures AllDigits(s) ==> r == s
  {
    if s == [] then [] else (if s[0] == '_' then [] else [s[0]]) + RemoveUnderscores(s[1..])
  }

  function ParseDigits(s: string): (r: Option<int>)
    ensures r.Some? ==> r.value >= 0
  {
    if WellFormedDigits(s) then Some(DigitsValue(RemoveUnderscores(s)) as int) else None
  }

  /** `int(s)` for a string: surrounding whitespace, an optional sign, then digits. */
  function ParseInt(s: string): (r: Option<int>)
  {
    var t := Strip(s);
    if t == [] then None
    else
      var signed := t[0] == '-' || t[0] == '+';
      match ParseDigits(if signed then t[1..] else t)
      case None => None
      case Some(n) => Some(if t[0] == '-' then -n else n)
  }

  lemma {:induction false} DigitsValueOfNatToString(n: nat)
    ensures DigitsValue(NatToString(n)) == n
  {
    if n >= 10 {
      var p := NatToString(n / 10);
      var s := p + [DigitChar(n % 10)];
      assert s[..|s| - 1] == p;
      DigitsValueOfNatToString(n / 10);
    }
  }

  lemma ParseDigitsOfNatToString(m: nat)
    ensures ParseDigits(NatToString(m)) == Some(m)
  {
    var d := NatToString(m);
    DigitsValueOfNatToString(m);
    assert WellFormedDigits(d);
    assert RemoveUnderscores(d) == d;
  }

  lemma ParseIntStripped(s: string)
    requires s != [] && Strip(s) == s
    ensures s[0] == '-' ==> ParseInt(s) == (match ParseDigits(s[1..]) case None => None case Some(n) => Some(-n))
    ensures s[0] != '-' && s[0] != '+' ==> ParseInt(s) == ParseDigits(s)
  {
    var t := Strip(s);
    assert t == s && t != [];
    assert ParseInt(s) == match ParseDigits(if t[0] == '-' || t[0] == '+' then t[1..] else t)
      case None => None
      case Some(n) => Some(if t[0] == '-' then -n else n);
  }

  lemma ParseIntOfNegative(n: int)
    requires n < 0
    ensures ParseInt(IntToString(n)) == Some(n)
  {
    var s := "-" + NatToString(-n);
    assert IntToString(n) == s;
    assert s[1..] == NatToString(-n);
    assert !IsSpace(s[0]) && !IsSpace(s[|s| - 1]);
    ParseDigitsOfNatToString(-n);
    ParseIntStripped(s);
  }

  lemma ParseIntOfNonNegative(n: int)
    requires n >= 0
    ensures ParseInt(IntToString(n)) == Some(n)
  {
    var s := NatToString(n);
    assert IntToString(n) == s;
    assert !IsSpace(s[0]) && !IsSpace(s[|s| - 1]);
    ParseDigitsOfNatToString(n);
    ParseIntStripped(s);
  }

  /** `int(str(n)) == n`: the two conversions are inverse. */
  lemma ParseIntOfIntToString(n: int)
    ensures ParseInt(IntToString(n)) == Some(n)
  {
    if n < 0 {
      ParseIntOfNegative(n);
    } else {
      ParseIntOfNonNegative(n);
    }
  }

  // ---------------------------------------------------------------------
  // Numbers
  // ---------------------------------------------------------------------

  function Clamp(x: int, lo: int, hi: int): (r: int)
    requires lo <= hi
    ensures lo <= r <= hi
    ensures lo <= x <= hi ==> r == x
    ensures x < lo ==> r == lo
    ensures x > hi ==> r == hi
  {
    if x < lo then lo else if x > hi then hi else x
  }

  function Max(a: int, b: int): (r: int)
    ensures r >= a && r >= b && (r == a || r == b)
  {
    if a >= b then a else b
  }

  function MaxReal(a: real, b: real): (r: real)
    ensures r >= a && r >= b && (r == a || r == b)
  {
    if a >= b then a else b
  }

  function AbsReal(x: real): (r: real)
    ensures r >= 0.0 && (r == x || r == -x)
  {
    if x < 0.0 then -x else x
  }

  /** `int(x)` for a float: truncation toward zero. */
  function Trunc(x: real): (r: int)
    ensures x >= 0.0 ==> r as real <= x < r as real + 1.0
    ensures x < 0.0 ==> r as real - 1.0 < x <= r as real
  {
    if x >= 0.0 then x.Floor else -((-x).Floor)
  }

  /** A real `a / b` splits into the integer quotient and a fraction `r / b`
      with `0 <= r < b`. */
  lemma RealQuotientSplit(a: int, b: int)
    requires b > 0
    ensures a as real / b as real == (a / b) as real + (a % b) as real / b as real
  {
    var q, r := a / b, a % b;
    assert a == q * b + r;
    assert a as real == q as real * b as real + r as real;
  }

  /** A fraction `r / b` with `0 <= r < b` lies in `[0, 1)`. */
  lemma ProperFraction(r: int, b: int)
    requires 0 <= r < b
    ensures 0.0 <= r as real / b as real < 1.0
  {
  }

  /** The floor of an integer plus a fraction in `[0, 1)` is that integer. */
  lemma FloorOfIntPlusFraction(q: int, f: real)
    requires 0.0 <= f < 1.0
    ensures (q as real + f).Floor == q
  {
  }

  /** `int(a / b)` for integers `a >= 0`, `b > 0` is the integer quotient. */
  lemma TruncOfQuotient(a: int, b: int)
    requires a >= 0 && b > 0
    ensures Trunc(a as real / b as real) == a / b
  {
    var q, f := a / b, (a % b) as real / b as real;
    RealQuotientSplit(a, b);
    ProperFraction(a % b, b);
    FloorOfIntPlusFraction(q, f);
    assert a as real / b as real == q as real + f;
    assert q >= 0;
  }

  /** `max(0, int(a / b))` for integers with `b > 0` is `max(0, a div b)`:
      both are 0 for a negative `a`. */
  lemma MaxTruncQuotient(a: int, b: int)
    requires b > 0
    ensures Max(0, Trunc(a as real / b as real)) == Max(0, a / b)
  {
    if a >= 0 {
      TruncOfQuotient(a, b);
    } else {
      assert a as real / b as real < 0.0;
      assert a / b < 0;
    }
  }

  /** `round(x)` for a float: to the nearest integer, ties to the even one. */
  function RoundHalfEven(x: real): (r: int)
    ensures -0.5 <= r as real - x <= 0.5
    ensures r as real - x == 0.5 ==> r % 2 == 0
    ensures x - r as real == 0.5 ==> r % 2 == 0
  {
    var f := x.Floor;
    var d := x - f as real;
    if d < 0.5 then f
    else if d > 0.5 then f + 1
    else if f % 2 == 0 then f else f + 1
  }

  // ---------------------------------------------------------------------
  // Slicing
  // ---------------------------------------------------------------------

  /** `l[start:]` with Python's rules for negative and out-of-range starts. */
  function SliceFrom<T>(l: seq<T>, start: int): (r: seq<T>)
    ensures exists k :: 0 <= k <= |l| && r == l[k..]
    ensures start > 0 ==> |r| == |l| - Clamp(start, 0, |l|)
    ensures start < 0 ==> |r| == Clamp(-start, 0, |l|)
    ensures start == 0 ==> r == l
  {
    var k := if start < 0 then (if start + |l| < 0 then 0 else start + |l|)
             else (if start > |l| then |l| else start);
    l[k..]
  }

  /** `l[-n:]` for n >= 1 keeps the last min(n, |l|) elements, in order. */
  lemma KeepLast<T>(l: seq<T>, n: int)
    requires n >= 1
    ensures var r := SliceFrom(l, -n);
      && |r| == (if n < |l| then n else |l|)
      && r == l[|l| - |r|..]
  {
  }

  /** The bounded-list idiom `l.append(x); if len(l) > n: l = l[-n:]`. */
  function AppendBounded<T>(l: seq<T>, x: T, n: int): (r: seq<T>)
    ensures n >= 1 ==> 1 <= |r| <= n
  {
    var ys := l + [x];
    if |ys| > n then SliceFrom(ys, -n) else ys
  }

  /** With a positive bound the list keeps its most recent min(n, |l| + 1)
      elements, in order, `x` last. */
  lemma AppendBoundedKeepsRecent<T>(l: seq<T>, x: T, n: int)
    requires n >= 1
    ensures var r := AppendBounded(l, x, n);
      && |r| == (if |l| + 1 < n then |l| + 1 else n)
      && r == (l + [x])[|l| + 1 - |r|..]
      && r[|r| - 1] == x
  {
    KeepLast(l + [x], n);
  }

  /** A bound of 0 keeps everything: `l[-0:]` is the whole list. */
  lemma AppendBoundedZero<T>(l: seq<T>, x: T)
    ensures AppendBounded(l, x, 0) == l + [x]
  {
  }
}
