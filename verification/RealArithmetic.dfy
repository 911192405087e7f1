/** Exact arithmetic shared by the audio modules. Rounding of floating point is not modelled. */
module RealArithmetic {

  function Abs(x: real): real {
    if x < 0.0 then -x else x
  }

  function Min(a: real, b: real): real {
    if a <= b then a else b
  }

  function Max(a: real, b: real): real {
    if a >= b then a else b
  }

  function MaxInt(a: int, b: int): int {
    if a >= b then a else b
  }

  function Sum(s: seq<real>): real {
    if s == [] then 0.0 else s[0] + Sum(s[1..])
  }

  lemma {:induction false} SumAppend(s: seq<real>, x: real)
    ensures Sum(s + [x]) == Sum(s) + x
  {
    if s == [] {
      assert s + [x] == [x];
    } else {
      SumAppend(s[1..], x);
      assert (s + [x])[1..] == s[1..] + [x];
    }
  }

  /** Replacing the oldest element of a sliding window by a new one. */
  lemma SumSlide(s: seq<real>, x: real)
    requires |s| > 0
    ensures Sum(s[1..] + [x]) == Sum(s) - s[0] + x
  {
    SumAppend(s[1..], x);
  }

  lemma {:induction false} SumBounds(s: seq<real>, lo: real, hi: real)
    requires forall i :: 0 <= i < |s| ==> lo <= s[i] <= hi
    ensures lo * |s| as real <= Sum(s) <= hi * |s| as real
  {
    if s != [] {
      SumBounds(s[1..], lo, hi);
      assert |s| as real == 1.0 + |s[1..]| as real;
      assert lo * |s| as real == lo + lo * |s[1..]| as real;
      assert hi * |s| as real == hi + hi * |s[1..]| as real;
    }
  }

  function Mean(w: seq<real>): real
    requires |w| > 0
  {
    Sum(w) / |w| as real
  }

  lemma {:induction false} GreatestOf(w: seq<real>) returns (hi: real)
    ensures forall i :: 0 <= i < |w| ==> w[i] <= hi
  {
    hi := 0.0;
    if w != [] {
      var rest := GreatestOf(w[1..]);
      hi := Max(w[0], rest);
      assert forall i :: 1 <= i < |w| ==> w[i] == w[1..][i - 1];
    }
  }

  lemma MeanBounds(w: seq<real>, lo: real, hi: real)
    requires |w| > 0 && forall i :: 0 <= i < |w| ==> lo <= w[i] <= hi
    ensures lo <= Mean(w) <= hi
  {
    SumBounds(w, lo, hi);
    QuotientBetween(Sum(w), lo, hi, |w| as real);
  }

  lemma QuotientBetween(total: real, lo: real, hi: real, n: real)
    requires n > 0.0 && lo * n <= total <= hi * n
    ensures lo <= total / n <= hi
  {
    var mean := total / n;
    DivCancel(total, n);
    MulCancel(lo, mean, n);
    MulCancel(mean, hi, n);
  }

  /** A positive lower bound of positive values. */
  lemma {:induction false} LeastPositive(w: seq<real>) returns (lo: real)
    requires forall i :: 0 <= i < |w| ==> w[i] > 0.0
    ensures lo > 0.0 && forall i :: 0 <= i < |w| ==> lo <= w[i]
  {
    if w == [] {
      lo := 1.0;
    } else {
      var rest := LeastPositive(w[1..]);
      lo := Min(rest, w[0]);
      forall i | 0 <= i < |w| ensures lo <= w[i] {
        assert i > 0 ==> w[i] == w[1..][i - 1];
      }
    }
  }

  /** How far a running mean moves when one value enters and one leaves. */
  lemma MeanSlides(w: seq<real>, x: real, step: real)
    requires |w| > 0 && 0.0 <= w[0] <= 1.0 && 0.0 <= x <= 1.0
    requires x - w[0] <= Times(|w|, step)
    ensures Mean(w[1..] + [x]) - Mean(w) <= step
    ensures Mean(w) - Mean(w[1..] + [x]) <= 1.0 / |w| as real
  {
    SumSlide(w, x);
    TimesIsProduct(|w|, step);
    QuotientSlew(Sum(w), Sum(w[1..] + [x]), |w| as real, step);
  }

  lemma QuotientSlew(s: real, s': real, n: real, step: real)
    requires n > 0.0 && s' - s <= n * step && s - s' <= 1.0
    ensures s' / n - s / n <= step
    ensures s / n - s' / n <= 1.0 / n
  {
  }

  /** k steps of x, added up one at a time. */
  function Times(k: nat, x: real): real {
    if k == 0 then 0.0 else Times(k - 1, x) + x
  }

  lemma {:induction false} TimesIsProduct(k: nat, x: real)
    ensures Times(k, x) == k as real * x
  {
    if k > 0 {
      TimesIsProduct(k - 1, x);
      var j := (k - 1) as real;
      assert (j + 1.0) * x == j * x + x;
      assert k as real == j + 1.0;
    }
  }

  lemma {:induction false} TimesMonotone(j: nat, k: nat, x: real)
    requires j <= k && x >= 0.0
    ensures Times(j, x) <= Times(k, x)
    decreases k
  {
    if j < k {
      TimesMonotone(j, k - 1, x);
    }
  }

  lemma MulMonotone(a: real, x: real, y: real)
    requires a >= 0.0 && x <= y
    ensures a * x <= a * y
  {
  }

  lemma ProductAbove(a: real, b: real, x: real, y: real)
    requires 0.0 <= a <= x && 0.0 <= b <= y
    ensures a * b <= x * y
  {
    MulMonotone(a, b, y);
    MulMonotone(y, a, x);
    assert y * a == a * y && y * x == x * y;
  }

  lemma MulStrict(a: real, x: real, y: real)
    requires a > 0.0 && x < y
    ensures a * x < a * y
  {
  }

  lemma MulCancel(x: real, y: real, a: real)
    requires a > 0.0 && x * a <= y * a
    ensures x <= y
  {
  }

  lemma QuotientPositive(x: real, a: real)
    requires x > 0.0 && a > 0.0
    ensures x / a > 0.0
  {
  }

  lemma DivCancel(x: real, a: real)
    requires a != 0.0
    ensures x / a * a == x
  {
  }

  lemma AbsMul(x: real, a: real)
    requires a >= 0.0
    ensures Abs(x * a) == Abs(x) * a
  {
  }

  /** Scaling by no more than a bound's own factor keeps a value within the bound. */
  lemma ScaledWithin(x: real, s: real, r: real, bound: real)
    requires 0.0 <= s <= r && Abs(x) * r <= bound
    ensures Abs(x * s) <= bound
  {
    AbsMul(x, s);
    MulMonotone(Abs(x), s, r);
  }

  /** The rounding of JavaScript's Math.round: halves go up. */
  function Round(x: real): int {
    (x + 0.5).Floor
  }

  /** The nearest whole number, the upper one of two equally near. */
  lemma RoundIsNearest(x: real, k: int)
    ensures -0.5 < Round(x) as real - x <= 0.5
    ensures -0.5 < k as real - x <= 0.5 ==> k == Round(x)
  {
  }

  const INT16_MIN := -32768
  const INT16_MAX := 32767

  function ClampInt16(value: real): (r: int)
    ensures INT16_MIN <= r <= INT16_MAX
  {
    var rounded := Round(value);
    if rounded > INT16_MAX then INT16_MAX
    else if rounded < INT16_MIN then INT16_MIN
    else rounded
  }

  /** Of all 16-bit values the one nearest to the rounded value. */
  lemma ClampIsNearest(value: real, k: int)
    requires INT16_MIN <= k <= INT16_MAX
    ensures Abs((ClampInt16(value) - Round(value)) as real) <= Abs((k - Round(value)) as real)
  {
  }
}
