/** Trailing moving averages as pandas computes them with `rolling(n).mean()`
    (default `min_periods == n`): the entry at position i is the arithmetic
    mean of the n values ending at i, and is undefined (NaN, here `None`)
    while fewer than n values are available. */
module Rolling {
  import opened Wrappers

  /** Sum of a sequence, folded from the last element. */
  function Sum(s: seq<real>): real
  {
    if s == [] then 0.0 else Sum(s[..|s| - 1]) + s[|s| - 1]
  }

  function Mean(s: seq<real>): real
    requires |s| > 0
  {
    Sum(s) / |s| as real
  }

  /** The last n values of xs. */
  function LastN(xs: seq<real>, n: nat): (w: seq<real>)
    requires n <= |xs|
    ensures |w| == n
  {
    xs[|xs| - n..]
  }

  /** Value of `xs.rolling(n).mean()` at the latest position. */
  function MeanOfLast(xs: seq<real>, n: nat): Option<real>
    requires n > 0
  {
    if |xs| >= n then Some(Mean(LastN(xs, n))) else None
  }

  /** The whole column `xs.rolling(n).mean()`: position i holds the window
      ending at i. */
  function RollingMean(xs: seq<real>, n: nat): (col: seq<Option<real>>)
    requires n > 0
    ensures |col| == |xs|
  {
    seq(|xs|, i requires 0 <= i < |xs| => MeanOfLast(xs[..i + 1], n))
  }

  /** The first n - 1 entries of the column are undefined and every later one
      is the mean of the n values ending there. */
  lemma RollingMeanAt(xs: seq<real>, n: nat, i: nat)
    requires n > 0 && i < |xs|
    ensures RollingMean(xs, n)[i].None? <==> i < n - 1
    ensures i >= n - 1 ==> RollingMean(xs, n)[i] == Some(Mean(xs[i + 1 - n..i + 1]))
  {
    if i >= n - 1 {
      assert LastN(xs[..i + 1], n) == xs[i + 1 - n..i + 1];
    }
  }

  /** `iloc[-1]` of the rolling column is the mean of the last n values, and it
      is defined exactly when there are at least n values. */
  lemma LatestOfRolling(xs: seq<real>, n: nat)
    requires n > 0 && |xs| > 0
    ensures RollingMean(xs, n)[|xs| - 1] == MeanOfLast(xs, n)
    ensures MeanOfLast(xs, n).Some? <==> |xs| >= n
    ensures |xs| >= n ==> MeanOfLast(xs, n).value == Sum(LastN(xs, n)) / n as real
  {
    assert xs[..|xs|] == xs;
  }

  /** Appending a bar never changes the earlier entries of the column: the
      rolling mean looks only backwards. */
  lemma RollingAppend(xs: seq<real>, x: real, n: nat)
    requires n > 0
    ensures RollingMean(xs + [x], n) == RollingMean(xs, n) + [MeanOfLast(xs + [x], n)]
  {
    var ys := xs + [x];
    forall i | 0 <= i < |xs|
      ensures RollingMean(ys, n)[i] == RollingMean(xs, n)[i]
    {
      assert ys[..i + 1] == xs[..i + 1];
    }
    assert ys[..|ys|] == ys;
  }

  /** The latest moving average is a function of the last n values alone. */
  lemma MeanOfLastOnlyWindow(xs: seq<real>, ys: seq<real>, n: nat)
    requires n > 0 && |xs| >= n && |ys| >= n
    requires LastN(xs, n) == LastN(ys, n)
    ensures MeanOfLast(xs, n) == MeanOfLast(ys, n)
  {
  }

  lemma {:induction false} SumConcat(a: seq<real>, b: seq<real>)
    ensures Sum(a + b) == Sum(a) + Sum(b)
    decreases |b|
  {
    if b == [] {
      assert a + b == a;
    } else {
      var b' := b[..|b| - 1];
      assert (a + b)[..|a + b| - 1] == a + b';
      SumConcat(a, b');
    }
  }

  /** Rolling-window correctness: after a new value arrives, the n-window mean
      equals the old one with the oldest value swapped for the new one. */
  lemma SlideWindow(xs: seq<real>, x: real, n: nat)
    requires n > 0 && |xs| >= n
    ensures MeanOfLast(xs + [x], n).Some? && MeanOfLast(xs, n).Some?
    ensures MeanOfLast(xs + [x], n).value
         == MeanOfLast(xs, n).value + (x - xs[|xs| - n]) / n as real
  {
    var w := LastN(xs, n);
    var w' := LastN(xs + [x], n);
    assert w == [xs[|xs| - n]] + w[1..];
    assert w' == w[1..] + [x];
    SumConcat([xs[|xs| - n]], w[1..]);
    SumConcat(w[1..], [x]);
    assert Sum([xs[|xs| - n]]) == xs[|xs| - n] by {
      assert [xs[|xs| - n]][..0] == [];
    }
    assert Sum([x]) == x by {
      assert [x][..0] == [];
    }
    assert Sum(w') == Sum(w) - xs[|xs| - n] + x;
  }

  /** The largest value of s, or 0 if that is larger: an upper bound of a
      non-empty window of non-negative values. */
  function MaxWithZero(s: seq<real>): (m: real)
    ensures m >= 0.0
    ensures forall i :: 0 <= i < |s| ==> s[i] <= m
  {
    if s == [] then 0.0
    else var m := MaxWithZero(s[..|s| - 1]); if s[|s| - 1] > m then s[|s| - 1] else m
  }

  lemma {:induction false} SumBounds(s: seq<real>, lo: real, hi: real)
    requires forall i :: 0 <= i < |s| ==> lo <= s[i] <= hi
    ensures |s| as real * lo <= Sum(s) <= |s| as real * hi
  {
    if s != [] {
      SumBounds(s[..|s| - 1], lo, hi);
    }
  }

  /** A mean lies between the smallest and the largest value of its window. */
  lemma MeanBounds(s: seq<real>, lo: real, hi: real)
    requires |s| > 0
    requires forall i :: 0 <= i < |s| ==> lo <= s[i] <= hi
    ensures lo <= Mean(s) <= hi
  {
    SumBounds(s, lo, hi);
    var n := |s| as real;
    assert Sum(s) / n >= lo by {
      assert Sum(s) >= n * lo;
    }
    assert Sum(s) / n <= hi by {
      assert Sum(s) <= n * hi;
    }
  }

  lemma {:induction false} SumPositive(s: seq<real>)
    requires |s| > 0
    requires forall i :: 0 <= i < |s| ==> s[i] > 0.0
    ensures Sum(s) > 0.0
  {
    if |s| > 1 {
      SumPositive(s[..|s| - 1]);
    } else {
      assert s[..0] == [];
    }
  }

  /** A mean of strictly positive values is strictly positive. */
  lemma MeanPositive(s: seq<real>)
    requires |s| > 0
    requires forall i :: 0 <= i < |s| ==> s[i] > 0.0
    ensures Mean(s) > 0.0
  {
    SumPositive(s);
  }

  lemma {:induction false} SumZero(s: seq<real>)
    requires forall i :: 0 <= i < |s| ==> s[i] >= 0.0
    ensures Sum(s) == 0.0 <==> forall i :: 0 <= i < |s| ==> s[i] == 0.0
  {
    if s != [] {
      var init := s[..|s| - 1];
      SumZero(init);
      SumNonNegative(init);
      if Sum(s) == 0.0 {
        forall i | 0 <= i < |s| ensures s[i] == 0.0 {
          if i < |s| - 1 { assert s[i] == init[i]; }
        }
      }
    }
  }

  lemma {:induction false} SumNonNegative(s: seq<real>)
    requires forall i :: 0 <= i < |s| ==> s[i] >= 0.0
    ensures Sum(s) >= 0.0
  {
    if s != [] {
      SumNonNegative(s[..|s| - 1]);
    }
  }

  /** A mean of non-negative values is zero only when every value is zero. */
  lemma MeanZero(s: seq<real>)
    requires |s| > 0
    requires forall i :: 0 <= i < |s| ==> s[i] >= 0.0
    ensures Mean(s) == 0.0 <==> forall i :: 0 <= i < |s| ==> s[i] == 0.0
  {
    SumZero(s);
  }

  function Scale(s: seq<real>, c: real): (r: seq<real>)
    ensures |r| == |s| && forall i :: 0 <= i < |s| ==> r[i] == s[i] * c
  {
    seq(|s|, i requires 0 <= i < |s| => s[i] * c)
  }

  lemma {:induction false} SumScale(s: seq<real>, c: real)
    ensures Sum(Scale(s, c)) == Sum(s) * c
  {
    if s != [] {
      var init := s[..|s| - 1];
      assert Scale(s, c)[..|s| - 1] == Scale(init, c) by {
        forall i | 0 <= i < |init| ensures Scale(s, c)[i] == Scale(init, c)[i] {
          assert init[i] == s[i];
        }
      }
      SumScale(init, c);
    }
  }

  /** Dividing a series by a constant divides its mean by that constant: the
      order "average, then convert to lots" does not matter. */
  lemma MeanScale(s: seq<real>, c: real)
    requires |s| > 0
    ensures Mean(Scale(s, c)) == Mean(s) * c
  {
    SumScale(s, c);
  }
}
