/**
 * Folds over sequences of reals that the JavaScript code writes as
 * `reduce((acc, v) => acc + v, 0)`, `Math.max(...xs)` and `Math.min(...xs)`.
 * Reals are exact, so they stand in for the source's doubles.
 */
module Series {

  /** Left-to-right sum starting from 0, as `xs.reduce((acc, v) => acc + v, 0)`. */
  function Sum(xs: seq<real>): real
  {
    if |xs| == 0 then 0.0 else Sum(xs[..|xs| - 1]) + xs[|xs| - 1]
  }

  /** `Math.max(a, b)`. */
  function Max(a: real, b: real): real
  {
    if a >= b then a else b
  }

  /** `Math.min(a, b)`. */
  function Min(a: real, b: real): real
  {
    if a <= b then a else b
  }

  /** `Math.max(...xs)` on a non-empty array, folded left to right. */
  function MaxOf(xs: seq<real>): real
    requires |xs| > 0
  {
    if |xs| == 1 then xs[0] else Max(MaxOf(xs[..|xs| - 1]), xs[|xs| - 1])
  }

  /** `Math.min(...xs)` on a non-empty array, folded left to right. */
  function MinOf(xs: seq<real>): real
    requires |xs| > 0
  {
    if |xs| == 1 then xs[0] else Min(MinOf(xs[..|xs| - 1]), xs[|xs| - 1])
  }

  /** The maximum is an upper bound of the elements and is one of them. */
  lemma {:induction false} MaxOfIsMaximum(xs: seq<real>)
    requires |xs| > 0
    ensures forall i :: 0 <= i < |xs| ==> xs[i] <= MaxOf(xs)
    ensures exists i :: 0 <= i < |xs| && xs[i] == MaxOf(xs)
  {
    if |xs| > 1 {
      var init := xs[..|xs| - 1];
      MaxOfIsMaximum(init);
      var k :| 0 <= k < |init| && init[k] == MaxOf(init);
      assert xs[k] == init[k];
      forall i | 0 <= i < |xs| - 1 ensures xs[i] <= MaxOf(xs) {
        assert xs[i] == init[i];
      }
      if xs[|xs| - 1] < MaxOf(init) {
        assert xs[k] == MaxOf(xs);
      } else {
        assert xs[|xs| - 1] == MaxOf(xs);
      }
    } else {
      assert xs[0] == MaxOf(xs);
    }
  }

  /** The minimum is a lower bound of the elements and is one of them. */
  lemma {:induction false} MinOfIsMinimum(xs: seq<real>)
    requires |xs| > 0
    ensures forall i :: 0 <= i < |xs| ==> MinOf(xs) <= xs[i]
    ensures exists i :: 0 <= i < |xs| && xs[i] == MinOf(xs)
  {
    if |xs| > 1 {
      var init := xs[..|xs| - 1];
      MinOfIsMinimum(init);
      var k :| 0 <= k < |init| && init[k] == MinOf(init);
      assert xs[k] == init[k];
      forall i | 0 <= i < |xs| - 1 ensures MinOf(xs) <= xs[i] {
        assert xs[i] == init[i];
      }
      if xs[|xs| - 1] > MinOf(init) {
        assert xs[k] == MinOf(xs);
      } else {
        assert xs[|xs| - 1] == MinOf(xs);
      }
    } else {
      assert xs[0] == MinOf(xs);
    }
  }

  /** A sum of terms between `lo` and `hi` lies between `n * lo` and `n * hi`. */
  lemma {:induction false} SumBounds(xs: seq<real>, lo: real, hi: real)
    requires forall i :: 0 <= i < |xs| ==> lo <= xs[i] <= hi
    ensures |xs| as real * lo <= Sum(xs) <= |xs| as real * hi
  {
    if |xs| > 0 {
      SumBounds(xs[..|xs| - 1], lo, hi);
    }
  }

  /** A sum of `n` copies of `c` is `n * c`. */
  lemma SumConstant(xs: seq<real>, c: real)
    requires forall i :: 0 <= i < |xs| ==> xs[i] == c
    ensures Sum(xs) == |xs| as real * c
  {
    SumBounds(xs, c, c);
  }

  /** A sum of non-negative terms is non-negative, and it is zero only when every term is. */
  lemma {:induction false} SumNonNegative(xs: seq<real>)
    requires forall i :: 0 <= i < |xs| ==> xs[i] >= 0.0
    ensures Sum(xs) >= 0.0
    ensures Sum(xs) == 0.0 ==> forall i :: 0 <= i < |xs| ==> xs[i] == 0.0
  {
    if |xs| > 0 {
      SumNonNegative(xs[..|xs| - 1]);
      if Sum(xs) == 0.0 {
        assert Sum(xs[..|xs| - 1]) == 0.0 && xs[|xs| - 1] == 0.0;
        forall i | 0 <= i < |xs| ensures xs[i] == 0.0 {
          if i < |xs| - 1 {
            assert xs[i] == xs[..|xs| - 1][i];
          }
        }
      }
    }
  }

  /** Dividing by a positive number keeps the sign. */
  lemma QuotientSign(x: real, y: real)
    requires y > 0.0
    ensures x / y * 100.0 > 0.0 <==> x > 0.0
    ensures x / y * 100.0 == 0.0 <==> x == 0.0
  {
    var q := x / y;
    assert q * y == x;
    if q > 0.0 { assert q * y > 0.0; }
    if q < 0.0 { assert q * y < 0.0; }
  }

  /** A quotient by a positive number lies between `lo` and `hi` when the dividend lies between `n * lo` and `n * hi`. */
  lemma QuotientBounds(x: real, n: real, lo: real, hi: real)
    requires n > 0.0 && n * lo <= x <= n * hi
    ensures lo <= x / n <= hi
  {
    var q := x / n;
    assert q * n == x;
    assert (q - lo) * n == x - n * lo;
    assert (hi - q) * n == n * hi - x;
    ProductZero(q - lo, n);
    ProductZero(hi - q, n);
  }

  /** A quotient by a positive number is zero exactly when the dividend is, and keeps the dividend's sign. */
  lemma QuotientZero(x: real, n: real)
    requires n > 0.0
    ensures x / n == 0.0 <==> x == 0.0
    ensures x >= 0.0 ==> x / n >= 0.0
    ensures x > 0.0 ==> x / n > 0.0
  {
    var q := x / n;
    assert q * n == x;
    if q < 0.0 { assert q * n < 0.0; }
    if q > 0.0 { assert q * n > 0.0; }
  }

  /** A product with a positive factor is zero exactly when the other factor is, and keeps its sign. */
  lemma ProductZero(x: real, n: real)
    requires n > 0.0
    ensures x * n == 0.0 <==> x == 0.0
    ensures x >= 0.0 <==> x * n >= 0.0
  {
    if x < 0.0 { assert x * n < 0.0; }
    if x > 0.0 { assert x * n > 0.0; }
  }

  /** A square is never negative, and only zero squares to zero. */
  lemma Square(x: real)
    ensures x * x >= 0.0
    ensures x * x == 0.0 <==> x == 0.0
  {
    if x > 0.0 {
      ProductZero(x, x);
    } else if x < 0.0 {
      ProductZero(-x, -x);
    }
  }

  /** The mean of a non-empty series lies between its least and its greatest element. */
  lemma MeanBetweenExtremes(xs: seq<real>)
    requires |xs| > 0
    ensures MinOf(xs) <= Sum(xs) / |xs| as real <= MaxOf(xs)
  {
    MinOfIsMinimum(xs);
    MaxOfIsMaximum(xs);
    SumBounds(xs, MinOf(xs), MaxOf(xs));
    QuotientBounds(Sum(xs), |xs| as real, MinOf(xs), MaxOf(xs));
  }

  /** The kept share `avg * (p - 1)` of a non-negative average is non-negative, and for `p > 1` zero only when the average is. */
  lemma Kept(avg: real, p: real)
    requires p >= 1.0 && avg >= 0.0
    ensures avg * (p - 1.0) >= 0.0
    ensures p > 1.0 ==> (avg * (p - 1.0) == 0.0 <==> avg == 0.0)
  {
    if p > 1.0 {
      ProductZero(avg, p - 1.0);
    }
  }

  /** The mean of `n` copies of `c` is `c`. */
  lemma MeanConstant(xs: seq<real>, c: real)
    requires |xs| > 0
    requires forall i :: 0 <= i < |xs| ==> xs[i] == c
    ensures Sum(xs) / |xs| as real == c
  {
    SumConstant(xs, c);
    QuotientBounds(Sum(xs), |xs| as real, c, c);
  }

  /** Summing from the left or peeling off the first element gives the same total. */
  lemma {:induction false} SumCons(x: real, xs: seq<real>)
    ensures Sum([x] + xs) == x + Sum(xs)
  {
    if |xs| > 0 {
      SumCons(x, xs[..|xs| - 1]);
      assert ([x] + xs)[..|xs|] == [x] + xs[..|xs| - 1];
    }
  }

  /** Dividing by the same positive number keeps distinct numbers distinct. */
  lemma QuotientInjective(x: real, y: real, n: real)
    requires n > 0.0
    ensures x / n == y / n <==> x == y
  {
    assert (x / n) * n == x;
    assert (y / n) * n == y;
  }

  /** The change from `from` to `to` as a percentage of `from`. */
  function PercentChange(from: real, to: real): real
    requires from != 0.0
  {
    ((to - from) / from) * 100.0
  }

  /** A percentage change scales the change by `100 / from`: it is zero exactly when nothing changed, and positive exactly when the change has the sign of `from`. */
  lemma PercentChangeMeaning(from: real, to: real)
    requires from != 0.0
    ensures PercentChange(from, to) * from == (to - from) * 100.0
    ensures PercentChange(from, to) == 0.0 <==> to == from
    ensures PercentChange(from, to) > 0.0 <==> (to - from > 0.0 <==> from > 0.0) && to != from
  {
    var q := (to - from) / from;
    assert q * from == to - from;
    if from > 0.0 {
      QuotientSign(to - from, from);
    } else {
      QuotientSign(from - to, -from);
      assert (from - to) / -from == q;
    }
  }
}
