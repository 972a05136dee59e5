/** Shared vocabulary of the model: optional values, the two languages' rounding
    rules over exact reals, Python's int() truncation, decimal rendering of
    integers, substring search and sums. */
module Common {

  datatype Option<T> = None | Some(value: T)

  /** A source of Math.random() / random.random() draws: the k-th draw
      of a run, each in [0, 1). */
  ghost predicate UnitDraws(rnd: nat -> real) {
    forall k :: 0.0 <= rnd(k) < 1.0
  }

  function Min(a: real, b: real): (r: real)
    ensures r <= a && r <= b && (r == a || r == b)
  {
    if a <= b then a else b
  }

  function Max(a: real, b: real): (r: real)
    ensures r >= a && r >= b && (r == a || r == b)
  {
    if a >= b then a else b
  }

  function IntMin(a: int, b: int): (r: int)
    ensures r <= a && r <= b && (r == a || r == b)
  {
    if a <= b then a else b
  }

  /** JavaScript's Math.round: the nearest integer, halves rounded up. */
  function JsRound(x: real): (r: int)
    ensures x - 0.5 < r as real <= x + 0.5
  {
    (x + 0.5).Floor
  }

  lemma JsRoundMonotone(x: real, y: real)
    requires x <= y
    ensures JsRound(x) <= JsRound(y)
  {
  }

  lemma JsRoundOfInt(n: int)
    ensures JsRound(n as real) == n
  {
  }

  function Pow10(n: nat): (r: nat)
    ensures r >= 1
  {
    if n == 0 then 1 else 10 * Pow10(n - 1)
  }

  /** Round half to even, the rule of Python's round on an exact value. */
  function RoundHalfEven(y: real): (r: int)
    ensures y - 0.5 <= r as real <= y + 0.5
  {
    var f := y.Floor;
    var frac := y - f as real;
    if frac < 0.5 then f
    else if frac > 0.5 then f + 1
    else if f % 2 == 0 then f else f + 1
  }

  lemma RoundHalfEvenMonotone(x: real, y: real)
    requires x <= y
    ensures RoundHalfEven(x) <= RoundHalfEven(y)
  {
  }

  /** 10^places as a real, the scale of Python's round(x, places). */
  function Scale(places: nat): (s: real)
    ensures s >= 1.0
  {
    Pow10(places) as real
  }

  /** Python's round(x, places) on an exact real: the nearest multiple of
      10^-places, ties to the even multiple. */
  function PyRound(x: real, places: nat): (r: real)
    ensures x - 0.5 / Scale(places) <= r <= x + 0.5 / Scale(places)
  {
    var s := Scale(places);
    var n := RoundHalfEven(x * s);
    DivMonotone(x * s - 0.5, n as real, s);
    DivMonotone(n as real, x * s + 0.5, s);
    assert (x * s - 0.5) / s == x - 0.5 / s;
    assert (x * s + 0.5) / s == x + 0.5 / s;
    n as real / s
  }

  lemma DivMonotone(a: real, b: real, s: real)
    requires s > 0.0 && a <= b
    ensures a / s <= b / s
  {
    assert b / s - a / s == (b - a) / s;
  }

  lemma MulMonotone(a: real, b: real, s: real)
    requires s >= 0.0 && a <= b
    ensures a * s <= b * s
  {
    assert b * s - a * s == (b - a) * s;
  }

  lemma PyRoundUnfold(x: real, places: nat)
    ensures PyRound(x, places) == RoundHalfEven(x * Scale(places)) as real / Scale(places)
  {
  }

  lemma ScaledRoundMonotone(x: real, y: real, s: real)
    requires s >= 1.0 && x <= y
    ensures RoundHalfEven(x * s) as real / s <= RoundHalfEven(y * s) as real / s
  {
    MulMonotone(x, y, s);
    RoundHalfEvenMonotone(x * s, y * s);
    DivMonotone(RoundHalfEven(x * s) as real, RoundHalfEven(y * s) as real, s);
  }

  lemma PyRoundMonotone(x: real, y: real, places: nat)
    requires x <= y
    ensures PyRound(x, places) <= PyRound(y, places)
  {
    PyRoundUnfold(x, places);
    PyRoundUnfold(y, places);
    ScaledRoundMonotone(x, y, Scale(places));
  }

  lemma ScaledRoundExact(x: real, n: int, s: real)
    requires s >= 1.0 && x * s == n as real
    ensures RoundHalfEven(x * s) as real / s == x
  {
    assert RoundHalfEven(n as real) == n;
  }

  /** A value that is already a multiple of 10^-places is left unchanged. */
  lemma PyRoundExact(n: int, places: nat)
    ensures PyRound(n as real / Scale(places), places) == n as real / Scale(places)
  {
    var x := n as real / Scale(places);
    PyRoundUnfold(x, places);
    assert x * Scale(places) == n as real;
    ScaledRoundExact(x, n, Scale(places));
    assert RoundHalfEven(x * Scale(places)) as real / Scale(places) == x;
  }

  /** A value inside [lo, hi], where lo and hi are multiples of 10^-places,
      still lies in [lo, hi] after rounding. */
  lemma PyRoundWithin(x: real, places: nat, lo: int, hi: int)
    requires lo as real / Scale(places) <= x <= hi as real / Scale(places)
    ensures lo as real / Scale(places) <= PyRound(x, places) <= hi as real / Scale(places)
  {
    PyRoundMonotone(lo as real / Scale(places), x, places);
    PyRoundMonotone(x, hi as real / Scale(places), places);
    PyRoundExact(lo, places);
    PyRoundExact(hi, places);
  }

  lemma ScaleCancels(n: int, places: nat)
    ensures (n * Pow10(places)) as real / Scale(places) == n as real
  {
    var s := Scale(places);
    assert (n * Pow10(places)) as real == n as real * s;
    assert n as real * s / s == n as real;
  }

  /** Rounding never crosses an integer bound. */
  lemma PyRoundAtLeast(x: real, places: nat, n: int)
    requires x >= n as real
    ensures PyRound(x, places) >= n as real
  {
    PyRoundMonotone(n as real, x, places);
    PyRoundExact(n * Pow10(places), places);
    ScaleCancels(n, places);
  }

  lemma PyRoundAtMost(x: real, places: nat, n: int)
    requires x <= n as real
    ensures PyRound(x, places) <= n as real
  {
    PyRoundMonotone(x, n as real, places);
    PyRoundExact(n * Pow10(places), places);
    ScaleCancels(n, places);
  }

  lemma MulPositive(a: real, b: real)
    requires a > 0.0 && b > 0.0
    ensures a * b > 0.0
  {
  }

  lemma UniformBounds(w: real, r: real)
    requires w >= 0.0 && 0.0 <= r < 1.0
    ensures 0.0 <= w * r <= w
    ensures w > 0.0 ==> w * r < w
  {
    MulMonotone(0.0, r, w);
    MulMonotone(r, 1.0, w);
    if w > 0.0 {
      MulPositive(w, 1.0 - r);
      assert w - w * r == w * (1.0 - r);
    }
  }

  /** A draw from [lo, hi) scaled from a unit draw r in [0, 1): Python's
      random.uniform and JavaScript's lo + Math.random() * (hi - lo). */
  function Uniform(lo: real, hi: real, r: real): (u: real)
    requires lo <= hi && 0.0 <= r < 1.0
    ensures lo <= u <= hi
    ensures lo < hi ==> u < hi
  {
    var w := hi - lo;
    UniformBounds(w, r);
    lo + w * r
  }

  /** Python's int() on a float: truncation toward zero. */
  function PyInt(x: real): (r: int)
    ensures x >= 0.0 ==> 0 <= r && r as real <= x < r as real + 1.0
    ensures x < 0.0 ==> r <= 0 && r as real - 1.0 < x <= r as real
  {
    if x >= 0.0 then x.Floor else -((-x).Floor)
  }

  function DigitChar(d: nat): (c: char)
    requires d < 10
    ensures '0' <= c <= '9'
    ensures c as int - '0' as int == d
  {
    ('0' as int + d) as char
  }

  /** Decimal rendering of a natural number, without leading zeros. */
  function NatToString(n: nat): (s: string)
    ensures |s| >= 1
    ensures forall i :: 0 <= i < |s| ==> '0' <= s[i] <= '9'
    ensures n >= 10 ==> s[0] != '0'
  {
    if n < 10 then [DigitChar(n)] else NatToString(n / 10) + [DigitChar(n % 10)]
  }

  /** Decimal rendering of an integer, as JavaScript's template strings and
      Python's str() print integral values. */
  function IntToString(n: int): (s: string)
    ensures |s| >= 1
    ensures forall i :: 0 <= i < |s| ==> ('0' <= s[i] <= '9' || s[i] == '-')
    ensures (s[0] == '-') <==> n < 0
  {
    if n < 0 then "-" + NatToString(-n) else NatToString(n)
  }

  /** Distinct numbers print differently. */
  lemma {:induction false} NatToStringInjective(a: nat, b: nat)
    requires NatToString(a) == NatToString(b)
    ensures a == b
  {
    var s := NatToString(a);
    if a >= 10 && b >= 10 {
      var t := NatToString(b);
      assert s[|s| - 1] == DigitChar(a % 10) && t[|t| - 1] == DigitChar(b % 10);
      assert NatToString(a / 10) == s[..|s| - 1] == t[..|t| - 1] == NatToString(b / 10);
      NatToStringInjective(a / 10, b / 10);
    } else if a < 10 && b < 10 {
      assert s[0] == DigitChar(a) && NatToString(b)[0] == DigitChar(b);
    }
  }

  lemma IntToStringInjective(a: int, b: int)
    requires IntToString(a) == IntToString(b)
    ensures a == b
  {
    if a < 0 && b < 0 {
      assert NatToString(-a) == IntToString(a)[1..] == IntToString(b)[1..] == NatToString(-b);
      NatToStringInjective(-a, -b);
    } else if a >= 0 && b >= 0 {
      NatToStringInjective(a, b);
    }
  }

  /** k occurs in s starting at position i. */
  predicate MatchAt(s: string, k: string, i: int) {
    0 <= i && i + |k| <= |s| && s[i..i + |k|] == k
  }

  /** Substring search: JavaScript's includes and Python's `in` on strings. */
  predicate Contains(s: string, k: string) {
    exists i | 0 <= i <= |s| - |k| :: MatchAt(s, k, i)
  }

  lemma {:induction false} ContainsExtended(p: string, s: string, t: string, k: string)
    requires Contains(s, k)
    ensures Contains(p + s + t, k)
  {
    var i :| 0 <= i <= |s| - |k| && MatchAt(s, k, i);
    var u := p + s + t;
    assert u[|p| + i..|p| + i + |k|] == s[i..i + |k|];
    assert MatchAt(u, k, |p| + i);
  }

  /** A pattern whose first character never occurs in s is not contained in s. */
  lemma NotContainsByFirstChar(s: string, k: string)
    requires |k| >= 1
    requires forall i :: 0 <= i < |s| ==> s[i] != k[0]
    ensures !Contains(s, k)
  {
    forall i | 0 <= i <= |s| - |k|
      ensures !MatchAt(s, k, i)
    {
      assert s[i..i + |k|][0] == s[i];
    }
  }

  /** Left-to-right sum of f over a sequence (Python's sum, a JS reduce). */
  function SumOf<T>(s: seq<T>, f: T -> real): real
  {
    if s == [] then 0.0 else SumOf(s[..|s| - 1], f) + f(s[|s| - 1])
  }

  lemma {:induction false} SumOfNonNegative<T>(s: seq<T>, f: T -> real)
    requires forall i :: 0 <= i < |s| ==> f(s[i]) >= 0.0
    ensures SumOf(s, f) >= 0.0
  {
    if s != [] {
      SumOfNonNegative(s[..|s| - 1], f);
    }
  }

  lemma {:induction false} SumOfBounds<T>(s: seq<T>, f: T -> real, lo: real, hi: real)
    requires forall i :: 0 <= i < |s| ==> lo <= f(s[i]) <= hi
    ensures lo * |s| as real <= SumOf(s, f) <= hi * |s| as real
  {
    if s != [] {
      SumOfBounds(s[..|s| - 1], f, lo, hi);
      assert lo * |s| as real == lo * (|s| - 1) as real + lo;
      assert hi * |s| as real == hi * (|s| - 1) as real + hi;
    }
  }

  /** Mean of f over a non-empty sequence. */
  function MeanOf<T>(s: seq<T>, f: T -> real): real
    requires |s| > 0
  {
    SumOf(s, f) / |s| as real
  }

  lemma MeanOfBounds<T>(s: seq<T>, f: T -> real, lo: real, hi: real)
    requires |s| > 0
    requires forall i :: 0 <= i < |s| ==> lo <= f(s[i]) <= hi
    ensures lo <= MeanOf(s, f) <= hi
  {
    var n := |s| as real;
    SumOfBounds(s, f, lo, hi);
    DivMonotone(lo * n, SumOf(s, f), n);
    DivMonotone(SumOf(s, f), hi * n, n);
    assert lo * n / n == lo;
    assert hi * n / n == hi;
  }
}
