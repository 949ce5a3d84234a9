/** Small value types shared by every model. */
module Basics {
  datatype Option<T> = None | Some(value: T)

  datatype Point = Point(x: real, y: real)

  /** `math.hypot`: the length is the non-negative root of dx² + dy². */
  predicate HypotOf(start: Point, end: Point, length: real) {
    var dx := end.x - start.x;
    var dy := end.y - start.y;
    length >= 0.0 && length * length == dx * dx + dy * dy
  }
}

/** Arithmetic vocabulary shared by the simulations: the scripts all use Python's
    `min`, `max`, `abs` and a `clamp(value, low, high)` helper on floats, which are
    modelled here on unbounded reals (no rounding). */
module Numeric {

  /** A random draw `rng.random()`, taken as a parameter. */
  predicate IsDraw(u: real) {
    0.0 <= u < 1.0
  }

  predicate InUnit(v: real) {
    0.0 <= v <= 1.0
  }

  /** `rng.uniform(low, high)` for the draw `u`. */
  function Uniform(low: real, high: real, u: real): real {
    low + (high - low) * u
  }

  function Min(a: real, b: real): (r: real)
    ensures r <= a && r <= b
    ensures r == a || r == b
  {
    if a <= b then a else b
  }

  function Max(a: real, b: real): (r: real)
    ensures r >= a && r >= b
    ensures r == a || r == b
  {
    if a >= b then a else b
  }

  function Abs(a: real): (r: real)
    ensures r >= 0.0
    ensures r == a || r == -a
  {
    if a < 0.0 then -a else a
  }

  /** `clamp(value, low, high) = max(low, min(high, value))`: for a non-empty
      interval the result lies in it, a value already inside is returned unchanged,
      and a value outside is moved to the nearer bound. */
  function Clamp(value: real, low: real, high: real): (r: real)
    ensures low <= high ==> low <= r <= high
    ensures low <= value <= high ==> r == value
    ensures low <= high && value < low ==> r == low
    ensures value > high ==> r == Max(low, high)
  {
    Max(low, Min(high, value))
  }

  /** Clamping into [0,1] never moves a value further from a point of [0,1]
      than it was: in particular an increment never decreases a value that was
      inside the interval and a decrement never increases it. */
  lemma ClampUnitStep(v: real, d: real)
    requires 0.0 <= v <= 1.0
    ensures d >= 0.0 ==> v <= Clamp(v + d, 0.0, 1.0)
    ensures d <= 0.0 ==> Clamp(v + d, 0.0, 1.0) <= v
  {
  }

  /** Clamping preserves order. */
  lemma ClampMonotone(a: real, b: real, low: real, high: real)
    requires a <= b && low <= high
    ensures Clamp(a, low, high) <= Clamp(b, low, high)
  {
  }

  /** The product of a non-negative and a positive real is non-negative. */
  lemma ProductNonNegative(a: real, c: real)
    requires a >= 0.0 && c > 0.0
    ensures a * c >= 0.0
  {
  }

  lemma ProductPositive(a: real, c: real)
    requires a > 0.0 && c > 0.0
    ensures a * c > 0.0
  {
  }

  /** Dividing by a positive `d` and comparing with `c` is comparing with `c * d`. */
  lemma BelowRatio(x: real, d: real, c: real)
    requires d > 0.0
    ensures x / d < c <==> x < c * d
    ensures x / d <= c <==> x <= c * d
  {
    var q := x / d;
    assert q * d == x;
    assert (c - q) * d == c * d - x;
    if q < c {
      ProductPositive(c - q, d);
    } else {
      ProductNonNegative(q - c, d);
    }
    if q > c {
      ProductPositive(q - c, d);
    } else {
      ProductNonNegative(c - q, d);
    }
  }

  /** Python's `int()` on a float: truncation toward zero. */
  function Trunc(x: real): (r: int)
    ensures x >= 0.0 ==> r == x.Floor
  {
    if x >= 0.0 then x.Floor else -((-x).Floor)
  }

  /** A pick strictly between 0 and a total is that total scaled by a draw. */
  lemma DrawFor(pick: real, total: real) returns (u: real)
    requires 0.0 < pick < total
    ensures IsDraw(u) && u * total == pick
  {
    u := pick / total;
    assert (u - 1.0) * total == pick - total;
    if u >= 1.0 {
      ProductNonNegative(u - 1.0, total);
      assert false;
    }
  }

  /** Left-to-right sum of a sequence of reals. */
  function Sum(xs: seq<real>): real {
    if xs == [] then 0.0 else Sum(xs[..|xs| - 1]) + xs[|xs| - 1]
  }

  /** Replacing one element changes the sum by the difference. */
  lemma {:induction false} SumUpdate(xs: seq<real>, i: nat, v: real)
    requires i < |xs|
    ensures Sum(xs[i := v]) == Sum(xs) - xs[i] + v
  {
    var n := |xs| - 1;
    if i < n {
      SumUpdate(xs[..n], i, v);
      assert xs[i := v][..n] == xs[..n][i := v];
    } else {
      assert xs[i := v][..n] == xs[..n];
    }
  }

  /** A sum of terms in [0, bound] lies in [0, |xs| * bound]. */
  lemma {:induction false} SumBounds(xs: seq<real>, bound: real)
    requires forall k :: 0 <= k < |xs| ==> 0.0 <= xs[k] <= bound
    ensures 0.0 <= Sum(xs) <= |xs| as real * bound
  {
    if xs != [] {
      SumBounds(xs[..|xs| - 1], bound);
    }
  }
}

/** Counting occurrences in a sequence, the model of Python's per-role counters. */
module Tally {

  function Count<T(==)>(s: seq<T>, x: T): (n: nat)
    ensures n <= |s|
  {
    if s == [] then 0 else Count(s[..|s| - 1], x) + (if s[|s| - 1] == x then 1 else 0)
  }

  /** The number of occurrences of `x` is its multiplicity in the multiset of `s`,
      so any permutation of `s` has the same counts. */
  lemma {:induction false} CountIsMultiplicity<T>(s: seq<T>, x: T)
    ensures Count(s, x) == multiset(s)[x]
  {
    if s != [] {
      CountIsMultiplicity(s[..|s| - 1], x);
      assert s == s[..|s| - 1] + [s[|s| - 1]];
    }
  }

  /** `n` copies of one value. */
  function Repeat<T>(x: T, n: nat): (s: seq<T>)
    ensures |s| == n
    ensures forall i :: 0 <= i < n ==> s[i] == x
  {
    if n == 0 then [] else Repeat(x, n - 1) + [x]
  }

  lemma {:induction false} RepeatMultiset<T>(x: T, n: nat)
    ensures multiset(Repeat(x, n)) == multiset{}[x := n]
  {
    if n > 0 {
      RepeatMultiset(x, n - 1);
    }
  }

  /** Replacing one element changes the counts of exactly the old and the new value. */
  lemma {:induction false} CountUpdate<T>(s: seq<T>, i: nat, v: T, x: T)
    requires i < |s|
    ensures Count(s[i := v], x) + (if s[i] == x then 1 else 0)
         == Count(s, x) + (if v == x then 1 else 0)
  {
    CountIsMultiplicity(s, x);
    CountIsMultiplicity(s[i := v], x);
    assert s == s[..i] + [s[i]] + s[i + 1..];
    assert s[i := v] == s[..i] + [v] + s[i + 1..];
  }
}

/** The cumulative-weight pick shared by weighted_choice and choose_branch:
    `pick -= weight` for each weight in turn, returning the first item at which
    `pick <= 0`, else the last item. */
module Weighted {

  /** Sum of the first `n` weights (Python's left-to-right `sum`). */
  function PrefixSum(w: seq<real>, n: nat): real
    requires n <= |w|
  {
    if n == 0 then 0.0 else PrefixSum(w, n - 1) + w[n - 1]
  }

  function Total(w: seq<real>): real {
    PrefixSum(w, |w|)
  }

  /** The index the cumulative pick lands on: the first index whose cumulative
      weight reaches `pick`, or the last index when none does. */
  function FirstReaching(w: seq<real>, pick: real): (k: nat)
    requires |w| > 0
    ensures k < |w|
    ensures forall j :: 0 < j <= k ==> PrefixSum(w, j) < pick
    ensures k < |w| - 1 ==> pick <= PrefixSum(w, k + 1)
  {
    FirstReachingFrom(w, pick, 0)
  }

  function FirstReachingFrom(w: seq<real>, pick: real, i: nat): (k: nat)
    requires i < |w|
    requires forall j :: 0 < j <= i ==> PrefixSum(w, j) < pick
    ensures i <= k < |w|
    ensures forall j :: 0 < j <= k ==> PrefixSum(w, j) < pick
    ensures k < |w| - 1 ==> pick <= PrefixSum(w, k + 1)
    decreases |w| - i
  {
    if i == |w| - 1 || pick <= PrefixSum(w, i + 1) then i
    else FirstReachingFrom(w, pick, i + 1)
  }

  /** With non-negative weights the cumulative sums never decrease, so a pick
      strictly inside (0, total] lands on an item of positive weight. */
  lemma {:induction false} PrefixSumMonotone(w: seq<real>, m: nat, n: nat)
    requires m <= n <= |w|
    requires forall j :: 0 <= j < |w| ==> w[j] >= 0.0
    ensures PrefixSum(w, m) <= PrefixSum(w, n)
    decreases n - m
  {
    if m < n {
      PrefixSumMonotone(w, m, n - 1);
    }
  }

  /** Strictly positive weights have a strictly positive total. */
  lemma PositiveTotal(w: seq<real>)
    requires |w| > 0
    requires forall j :: 0 <= j < |w| ==> w[j] > 0.0
    ensures Total(w) > 0.0
  {
    PrefixSumMonotone(w, 1, |w|);
    assert PrefixSum(w, 1) == w[0];
  }

  /** The cumulative pick lands on `i` exactly when every earlier cumulative
      weight falls short of it and the one through `i` reaches it (or `i` is last). */
  lemma FirstReachingIs(w: seq<real>, pick: real, i: nat)
    requires i < |w|
    requires forall j :: 0 < j <= i ==> PrefixSum(w, j) < pick
    requires i == |w| - 1 || pick <= PrefixSum(w, i + 1)
    ensures FirstReaching(w, pick) == i
  {
  }

  /** With non-negative weights, a pick inside the slice of item `i`, above
      the weight of the items before it and within the weight through it,
      lands on `i`. */
  lemma FirstReachingInSlice(w: seq<real>, pick: real, i: nat)
    requires i < |w|
    requires forall j :: 0 <= j < |w| ==> w[j] >= 0.0
    requires PrefixSum(w, i) < pick <= PrefixSum(w, i + 1)
    ensures FirstReaching(w, pick) == i
  {
    var k := FirstReaching(w, pick);
    if k < i {
      PrefixSumMonotone(w, k + 1, i);
      assert false;
    } else if k > i {
      assert false;
    }
  }

  lemma PickLandsOnPositiveWeight(w: seq<real>, pick: real)
    requires |w| > 0
    requires forall j :: 0 <= j < |w| ==> w[j] >= 0.0
    requires 0.0 < pick <= Total(w)
    ensures w[FirstReaching(w, pick)] > 0.0
  {
    var k := FirstReaching(w, pick);
    if k == 0 {
      assert PrefixSum(w, 1) == w[0];
      if k < |w| - 1 {
        assert pick <= PrefixSum(w, 1);
      } else {
        assert pick <= PrefixSum(w, |w|);
      }
    } else {
      assert PrefixSum(w, k) < pick;
      if k < |w| - 1 {
        assert pick <= PrefixSum(w, k + 1);
      } else {
        assert Total(w) == PrefixSum(w, k + 1);
      }
    }
  }
}
