/** Python's `sum`, `max`, `min` and `abs` over one column of a series, in
    exact real arithmetic. */
module Stats {

  /** `abs` of a difference of two column statistics. The day-count
      criteria take `abs` of a difference of integers; that one is
      `Similarity.IntAbs`, since a count is an `int`, not a `real`. */
  function Abs(x: real): (r: real)
    ensures r >= 0.0 && (r == x || r == -x)
  {
    if x < 0.0 then -x else x
  }

  /** `sum(column)`; the sum of no values is 0. */
  function Sum(xs: seq<real>): real
  {
    if |xs| == 0 then 0.0 else xs[0] + Sum(xs[1..])
  }

  /** `max(column)`; Python raises on an empty column, hence the
      precondition. MaxBounds and MaxAttained say what it is. */
  function Max(xs: seq<real>): real
    requires |xs| > 0
  {
    if |xs| == 1 then xs[0]
    else
      var rest := Max(xs[1..]);
      if rest > xs[0] then rest else xs[0]
  }

  /** `min(column)`; MinBounds and MinAttained say what it is. */
  function Min(xs: seq<real>): real
    requires |xs| > 0
  {
    if |xs| == 1 then xs[0]
    else
      var rest := Min(xs[1..]);
      if rest < xs[0] then rest else xs[0]
  }

  /** No value of the column exceeds `max`. */
  lemma {:induction false} MaxBounds(xs: seq<real>)
    requires |xs| > 0
    ensures forall i :: 0 <= i < |xs| ==> xs[i] <= Max(xs)
  {
    if |xs| > 1 {
      MaxBounds(xs[1..]);
      assert forall i :: 1 <= i < |xs| ==> xs[i] == xs[1..][i - 1];
    }
  }

  /** No value of the column undercuts `min`. */
  lemma {:induction false} MinBounds(xs: seq<real>)
    requires |xs| > 0
    ensures forall i :: 0 <= i < |xs| ==> Min(xs) <= xs[i]
  {
    if |xs| > 1 {
      MinBounds(xs[1..]);
      assert forall i :: 1 <= i < |xs| ==> xs[i] == xs[1..][i - 1];
    }
  }

  /** `max` returns one of the column's own values. */
  lemma {:induction false} MaxAttained(xs: seq<real>)
    requires |xs| > 0
    ensures exists i :: 0 <= i < |xs| && xs[i] == Max(xs)
  {
    if |xs| == 1 {
      assert xs[0] == Max(xs);
    } else {
      MaxAttained(xs[1..]);
      var j :| 0 <= j < |xs[1..]| && xs[1..][j] == Max(xs[1..]);
      if Max(xs[1..]) > xs[0] {
        assert xs[j + 1] == Max(xs);
      } else {
        assert xs[0] == Max(xs);
      }
    }
  }

  /** `min` returns one of the column's own values. */
  lemma {:induction false} MinAttained(xs: seq<real>)
    requires |xs| > 0
    ensures exists i :: 0 <= i < |xs| && xs[i] == Min(xs)
  {
    if |xs| == 1 {
      assert xs[0] == Min(xs);
    } else {
      MinAttained(xs[1..]);
      var j :| 0 <= j < |xs[1..]| && xs[1..][j] == Min(xs[1..]);
      if Min(xs[1..]) < xs[0] {
        assert xs[j + 1] == Min(xs);
      } else {
        assert xs[0] == Min(xs);
      }
    }
  }

  /** A lower bound of every value bounds the sum by `|xs|` copies of it. */
  lemma {:induction false} SumAtLeast(xs: seq<real>, lo: real)
    requires forall i :: 0 <= i < |xs| ==> lo <= xs[i]
    ensures |xs| as real * lo <= Sum(xs)
  {
    if |xs| > 0 {
      assert forall i :: 0 <= i < |xs[1..]| ==> xs[1..][i] == xs[i + 1];
      SumAtLeast(xs[1..], lo);
    }
  }

  /** An upper bound of every value bounds the sum by `|xs|` copies of it. */
  lemma {:induction false} SumAtMost(xs: seq<real>, hi: real)
    requires forall i :: 0 <= i < |xs| ==> xs[i] <= hi
    ensures Sum(xs) <= |xs| as real * hi
  {
    if |xs| > 0 {
      assert forall i :: 0 <= i < |xs[1..]| ==> xs[1..][i] == xs[i + 1];
      SumAtMost(xs[1..], hi);
    }
  }

  /** `sum(column) / len(data)`, the unrounded arithmetic mean. It lies
      between the column's smallest and largest value. */
  function Mean(xs: seq<real>): (m: real)
    requires |xs| > 0
    ensures Min(xs) <= m <= Max(xs)
  {
    var n := |xs| as real;
    MinBounds(xs);
    MaxBounds(xs);
    SumAtLeast(xs, Min(xs));
    SumAtMost(xs, Max(xs));
    DivideBounds(Sum(xs), n, Min(xs), Max(xs));
    Sum(xs) / n
  }

  /** Dividing `n * lo <= s <= n * hi` by a positive `n`. */
  lemma DivideBounds(s: real, n: real, lo: real, hi: real)
    requires n > 0.0
    requires n * lo <= s <= n * hi
    ensures lo <= s / n <= hi
  {
    assert s / n * n == s;
  }

  /** Dividing a sum raised by `n` times `d` by `n`. */
  lemma DivideShift(s: real, n: real, d: real)
    requires n > 0.0
    ensures (s + n * d) / n == s / n + d
  {
    assert (s / n + d) * n == s + n * d;
  }

  /** A column that repeats one value `n` times sums to `n` times that value,
      and that value is its mean, its largest and its smallest value. */
  lemma {:induction false} ConstantColumn(xs: seq<real>, v: real)
    requires forall i :: 0 <= i < |xs| ==> xs[i] == v
    ensures Sum(xs) == |xs| as real * v
    ensures |xs| > 0 ==> Mean(xs) == v && Max(xs) == v && Min(xs) == v
  {
    if |xs| > 0 {
      assert forall i :: 0 <= i < |xs[1..]| ==> xs[1..][i] == xs[i + 1];
      ConstantColumn(xs[1..], v);
      assert |xs| as real * v == v + |xs[1..]| as real * v;
      MaxAttained(xs);
      MinAttained(xs);
    }
  }

  /** Raising every value by `d` raises the sum by `|xs|` times `d`. */
  lemma {:induction false} SumShift(xs: seq<real>, ys: seq<real>, d: real)
    requires |xs| == |ys|
    requires forall i :: 0 <= i < |xs| ==> ys[i] == xs[i] + d
    ensures Sum(ys) == Sum(xs) + |xs| as real * d
  {
    if |xs| > 0 {
      assert forall i :: 0 <= i < |xs[1..]| ==> xs[1..][i] == xs[i + 1] && ys[1..][i] == ys[i + 1];
      SumShift(xs[1..], ys[1..], d);
      assert |xs| as real * d == d + |xs[1..]| as real * d;
    }
  }
}
