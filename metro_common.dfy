/** Vocabulary shared by the three metro-train scripts (enhanced, final_correct,
    correct_order). Each script copies the same constants, the same speed schedule
    for the approach, the same "leader is the rightmost coach" rule and the same
    delivery log; they are defined once here and used by the three models. */
module MetroCommon {
  import opened Numeric
  import opened Basics

  /** The string-named state machine of the swarm; EVALUATING is used only by
      the correct-order variant. */
  datatype SwarmState = Entering | Approaching | Delivering | Evaluating | Exiting | Complete

  /** `current_state in ["ENTERING", "APPROACHING", "DELIVERING"]`: the states in
      which update moves the train and delivers. */
  predicate Active(s: SwarmState) {
    s == Entering || s == Approaching || s == Delivering
  }

  // Geometry shared by the three scripts
  const CatheterX: real := 50.0
  const CatheterY: real := 500.0
  const TargetX: real := 700.0
  const TargetY: real := 500.0
  const CoachSpacing: real := 35.0
  const CoachCount: nat := 5
  /** `coach_labels = ['C1', 'C2', 'C3', 'C4', 'C5']`, from the back to the front. */
  const Labels: seq<string> := ["C1", "C2", "C3", "C4", "C5"]
  /** `dispense_medicine(ml_per_frame=0.05)` */
  const MlPerFrame: real := 0.05
  /** `time = frame / 20.0` */
  const FramesPerSecond: real := 20.0
  /** `medicine_effect = max(0, medicine_effect - 0.15)` */
  const EffectDecay: real := 0.15

  /** The APPROACHING speed schedule of move_formation / move_train: faster the
      further the leader is from the clot. A step never carries the leader past
      the clot, and every step is one of the six listed speeds. */
  function ApproachSpeed(distance: real): (vx: real)
    requires distance > 5.0
    ensures 0.0 < vx < distance
    ensures vx == 4.0 || vx == 3.5 || vx == 3.0 || vx == 2.0 || vx == 1.0 || vx == 0.3
  {
    if distance > 300.0 then 4.0
    else if distance > 200.0 then 3.5
    else if distance > 100.0 then 3.0
    else if distance > 50.0 then 2.0
    else if distance > 20.0 then 1.0
    else 0.3
  }

  /** The schedule never speeds up as the leader gets closer. */
  lemma ApproachSpeedMonotone(d1: real, d2: real)
    requires 5.0 < d1 <= d2
    ensures ApproachSpeed(d1) <= ApproachSpeed(d2)
  {
  }

  // ---------------------------------------------------------------------------
  // Leader and back of a formation.
  //
  // The scripts sort the formation by x with Python's stable `sorted` and then
  // take `max(formation, key=x)` (the leader) or `min(formation, key=x)` (the
  // back). Both builtins return the FIRST extremal element they meet, and in a
  // stable sort equal keys keep the order of the coach list; so the coach chosen
  // is, among the extremal members, the one with the lowest index in the list.

  /** Index of the first member with the largest x among indices [0, n). */
  function FirstMaxUpTo(xs: seq<real>, member: seq<bool>, n: nat): (r: Option<nat>)
    requires |xs| == |member| && n <= |xs|
    ensures r.None? <==> forall k :: 0 <= k < n ==> !member[k]
    ensures r.Some? ==> r.value < n && member[r.value]
    ensures r.Some? ==> forall k :: 0 <= k < n && member[k] ==> xs[k] <= xs[r.value]
    ensures r.Some? ==> forall k :: 0 <= k < r.value && member[k] ==> xs[k] < xs[r.value]
  {
    if n == 0 then None
    else
      var r := FirstMaxUpTo(xs, member, n - 1);
      if !member[n - 1] then r
      else if r.None? || xs[n - 1] > xs[r.value] then Some(n - 1)
      else r
  }

  /** Index of the first member with the smallest x among indices [0, n). */
  function FirstMinUpTo(xs: seq<real>, member: seq<bool>, n: nat): (r: Option<nat>)
    requires |xs| == |member| && n <= |xs|
    ensures r.None? <==> forall k :: 0 <= k < n ==> !member[k]
    ensures r.Some? ==> r.value < n && member[r.value]
    ensures r.Some? ==> forall k :: 0 <= k < n && member[k] ==> xs[r.value] <= xs[k]
    ensures r.Some? ==> forall k :: 0 <= k < r.value && member[k] ==> xs[r.value] < xs[k]
  {
    if n == 0 then None
    else
      var r := FirstMinUpTo(xs, member, n - 1);
      if !member[n - 1] then r
      else if r.None? || xs[n - 1] < xs[r.value] then Some(n - 1)
      else r
  }

  function FirstMax(xs: seq<real>, member: seq<bool>): Option<nat>
    requires |xs| == |member|
  {
    FirstMaxUpTo(xs, member, |xs|)
  }

  function FirstMin(xs: seq<real>, member: seq<bool>): Option<nat>
    requires |xs| == |member|
  {
    FirstMinUpTo(xs, member, |xs|)
  }

  /** The first member with the largest x is determined by its characterisation:
      a member no smaller than any member and larger than every earlier one. */
  lemma FirstMaxUnique(xs: seq<real>, member: seq<bool>, n: nat, r: nat)
    requires |xs| == |member| && n <= |xs|
    requires r < n && member[r]
    requires forall k :: 0 <= k < n && member[k] ==> xs[k] <= xs[r]
    requires forall k :: 0 <= k < r && member[k] ==> xs[k] < xs[r]
    ensures FirstMaxUpTo(xs, member, n) == Some(r)
  {
  }

  /** Moving every member by the same amount keeps the same coach in front: the
      leader of a formation does not change while the formation advances. */
  lemma {:induction false} FirstMaxShift(xs: seq<real>, ys: seq<real>, member: seq<bool>, d: real, n: nat)
    requires |xs| == |ys| == |member| && n <= |xs|
    requires forall k :: 0 <= k < |xs| && member[k] ==> ys[k] == xs[k] + d
    ensures FirstMaxUpTo(ys, member, n) == FirstMaxUpTo(xs, member, n)
  {
    if n > 0 {
      FirstMaxShift(xs, ys, member, d, n - 1);
    }
  }

  /** The same for the back coach. */
  lemma {:induction false} FirstMinShift(xs: seq<real>, ys: seq<real>, member: seq<bool>, d: real, n: nat)
    requires |xs| == |ys| == |member| && n <= |xs|
    requires forall k :: 0 <= k < |xs| && member[k] ==> ys[k] == xs[k] + d
    ensures FirstMinUpTo(ys, member, n) == FirstMinUpTo(xs, member, n)
  {
    if n > 0 {
      FirstMinShift(xs, ys, member, d, n - 1);
    }
  }

  /** Positions of non-members do not influence the choice. */
  lemma {:induction false} FirstMaxIgnoresOthers(xs: seq<real>, ys: seq<real>, member: seq<bool>, n: nat)
    requires |xs| == |ys| == |member| && n <= |xs|
    requires forall k :: 0 <= k < |xs| && member[k] ==> ys[k] == xs[k]
    ensures FirstMaxUpTo(ys, member, n) == FirstMaxUpTo(xs, member, n)
  {
    if n > 0 {
      FirstMaxIgnoresOthers(xs, ys, member, n - 1);
    }
  }

  // ---------------------------------------------------------------------------
  // Stable sort by x (Python's `sorted(..., key=lambda c: c.x)`), on coach indices.

  predicate SortedBy(s: seq<nat>, xs: seq<real>)
    requires forall k :: 0 <= k < |s| ==> s[k] < |xs|
  {
    forall a, b :: 0 <= a < b < |s| ==> xs[s[a]] <= xs[s[b]]
  }

  /** Insert `i` after every element whose key is at most its own (so that, the
      input being processed in list order, equal keys keep their order). */
  function Insert(i: nat, s: seq<nat>, xs: seq<real>): (r: seq<nat>)
    requires i < |xs|
    requires forall k :: 0 <= k < |s| ==> s[k] < |xs|
    ensures |r| == |s| + 1
    ensures multiset(r) == multiset(s) + multiset{i}
  {
    if s == [] then [i]
    else if xs[s[|s| - 1]] <= xs[i] then s + [i]
    else
      assert s == s[..|s| - 1] + [s[|s| - 1]];
      Insert(i, s[..|s| - 1], xs) + [s[|s| - 1]]
  }

  /** Elements of an insertion come from the list or are the inserted index. */
  lemma InsertElements(i: nat, s: seq<nat>, xs: seq<real>, k: nat)
    requires i < |xs|
    requires forall k :: 0 <= k < |s| ==> s[k] < |xs|
    requires k < |Insert(i, s, xs)|
    ensures Insert(i, s, xs)[k] == i || Insert(i, s, xs)[k] in s
  {
    var r := Insert(i, s, xs);
    assert r[k] in multiset(r);
  }

  lemma SortedAppend(s: seq<nat>, x: nat, xs: seq<real>)
    requires x < |xs|
    requires forall k :: 0 <= k < |s| ==> s[k] < |xs|
    requires SortedBy(s, xs)
    requires forall k :: 0 <= k < |s| ==> xs[s[k]] <= xs[x]
    ensures SortedBy(s + [x], xs)
  {
    var t := s + [x];
    forall a, b | 0 <= a < b < |t| ensures xs[t[a]] <= xs[t[b]] {
      if b < |s| {
        assert t[a] == s[a] && t[b] == s[b];
      } else {
        assert t[a] == s[a] && t[b] == x;
      }
    }
  }

  lemma {:induction false} InsertSorted(i: nat, s: seq<nat>, xs: seq<real>)
    requires i < |xs|
    requires forall k :: 0 <= k < |s| ==> s[k] < |xs|
    requires SortedBy(s, xs)
    ensures forall k :: 0 <= k < |Insert(i, s, xs)| ==> Insert(i, s, xs)[k] < |xs|
    ensures SortedBy(Insert(i, s, xs), xs)
  {
    var r := Insert(i, s, xs);
    forall k | 0 <= k < |r| ensures r[k] < |xs| {
      InsertElements(i, s, xs, k);
    }
    if s == [] {
    } else if xs[s[|s| - 1]] <= xs[i] {
      SortedAppend(s, i, xs);
    } else {
      var init, last := s[..|s| - 1], s[|s| - 1];
      var rest := Insert(i, init, xs);
      InsertSorted(i, init, xs);
      assert r == rest + [last];
      forall k | 0 <= k < |rest| ensures xs[rest[k]] <= xs[last] {
        InsertElements(i, init, xs, k);
        if rest[k] != i {
          var a :| 0 <= a < |init| && init[a] == rest[k];
          assert s[a] == rest[k];
        }
      }
      SortedAppend(rest, last, xs);
    }
  }

  /** Coaches with equal keys keep their list order (indices ascending). */
  predicate StableBy(s: seq<nat>, xs: seq<real>)
    requires forall k :: 0 <= k < |s| ==> s[k] < |xs|
  {
    forall a, b :: 0 <= a < b < |s| && xs[s[a]] == xs[s[b]] ==> s[a] < s[b]
  }

  /** Inserting an index larger than every listed one keeps equal keys in order. */
  lemma {:induction false} InsertStable(i: nat, s: seq<nat>, xs: seq<real>)
    requires i < |xs|
    requires forall k :: 0 <= k < |s| ==> s[k] < |xs| && s[k] < i
    requires StableBy(s, xs)
    ensures forall k :: 0 <= k < |Insert(i, s, xs)| ==> Insert(i, s, xs)[k] < |xs|
    ensures StableBy(Insert(i, s, xs), xs)
  {
    var r := Insert(i, s, xs);
    forall k | 0 <= k < |r| ensures r[k] < |xs| {
      InsertElements(i, s, xs, k);
    }
    if s == [] {
    } else if xs[s[|s| - 1]] <= xs[i] {
      assert r == s + [i];
    } else {
      var init, last := s[..|s| - 1], s[|s| - 1];
      var rest := Insert(i, init, xs);
      InsertStable(i, init, xs);
      assert r == rest + [last];
      forall a, b | 0 <= a < b < |r| && xs[r[a]] == xs[r[b]] ensures r[a] < r[b] {
        if b == |rest| {
          InsertElements(i, init, xs, a);
          if rest[a] != i {
            var a' :| 0 <= a' < |init| && init[a'] == rest[a];
            assert s[a'] == rest[a];
          }
        }
      }
    }
  }

  /** Sorting an increasing index list keeps coaches with equal x in list order,
      as Python's stable `sorted` does. */
  lemma {:induction false} SortByXStable(idx: seq<nat>, xs: seq<real>)
    requires forall k :: 0 <= k < |idx| ==> idx[k] < |xs|
    requires forall a, b :: 0 <= a < b < |idx| ==> idx[a] < idx[b]
    ensures StableBy(SortByX(idx, xs), xs)
  {
    if idx != [] {
      var init, last := idx[..|idx| - 1], idx[|idx| - 1];
      assert idx == init + [last];
      var sortedInit := SortByX(init, xs);
      SortByXStable(init, xs);
      forall k | 0 <= k < |sortedInit| ensures sortedInit[k] < last {
        assert sortedInit[k] in multiset(init);
        var a :| 0 <= a < |init| && init[a] == sortedInit[k];
        assert idx[a] == init[a];
      }
      InsertStable(last, sortedInit, xs);
    }
  }

  /** The extracted list of coach indices sorted stably by x: a permutation of it
      with non-decreasing keys. */
  function SortByX(idx: seq<nat>, xs: seq<real>): (r: seq<nat>)
    requires forall k :: 0 <= k < |idx| ==> idx[k] < |xs|
    ensures |r| == |idx|
    ensures multiset(r) == multiset(idx)
    ensures forall k :: 0 <= k < |r| ==> r[k] < |xs|
    ensures SortedBy(r, xs)
  {
    if idx == [] then []
    else
      assert idx == idx[..|idx| - 1] + [idx[|idx| - 1]];
      var sortedInit := SortByX(idx[..|idx| - 1], xs);
      InsertSorted(idx[|idx| - 1], sortedInit, xs);
      Insert(idx[|idx| - 1], sortedInit, xs)
  }

  /** Indices k in [0, n) with member[k], in increasing order (a list comprehension
      `[c for c in coaches if ...]`). */
  function Members(member: seq<bool>, n: nat): (r: seq<nat>)
    requires n <= |member|
    ensures forall k :: 0 <= k < |r| ==> r[k] < n && member[r[k]]
    ensures forall k :: 0 <= k < n && member[k] ==> k in r
    ensures forall a, b :: 0 <= a < b < |r| ==> r[a] < r[b]
  {
    if n == 0 then []
    else if member[n - 1] then Members(member, n - 1) + [n - 1]
    else Members(member, n - 1)
  }

  /** `sorted([c for c in coaches if ...], key=lambda c: c.x)` as coach indices:
      every member exactly once, in order of x, equal x in list order. */
  function SortedMembers(member: seq<bool>, xs: seq<real>): (r: seq<nat>)
    requires |member| == |xs|
    ensures forall k :: 0 <= k < |r| ==> r[k] < |xs| && member[r[k]]
    ensures forall k :: 0 <= k < |xs| && member[k] ==> k in r
    ensures forall a, b :: 0 <= a < b < |r| ==> r[a] != r[b]
    ensures SortedBy(r, xs) && StableBy(r, xs)
  {
    var m := Members(member, |member|);
    var r := SortByX(m, xs);
    NoRepeats(r, m);
    SortByXStable(m, xs);
    forall k | 0 <= k < |r| ensures member[r[k]] {
      assert r[k] in multiset(m);
    }
    forall k | 0 <= k < |xs| && member[k] ensures k in r {
      assert k in multiset(r);
    }
    r
  }

  /** In a strictly increasing list every index occurs at most once. */
  lemma {:induction false} IncreasingOnce(m: seq<nat>, x: nat)
    requires forall a, b :: 0 <= a < b < |m| ==> m[a] < m[b]
    ensures multiset(m)[x] <= 1
  {
    if m != [] {
      var init, last := m[..|m| - 1], m[|m| - 1];
      assert m == init + [last];
      IncreasingOnce(init, x);
      if x == last {
        forall i | 0 <= i < |init| ensures init[i] != x {
          assert m[i] < m[|m| - 1];
        }
        assert x !in init;
      }
    }
  }

  /** A rearrangement of a strictly increasing list repeats no index. */
  lemma NoRepeats(r: seq<nat>, m: seq<nat>)
    requires multiset(r) == multiset(m)
    requires forall a, b :: 0 <= a < b < |m| ==> m[a] < m[b]
    ensures forall a, b :: 0 <= a < b < |r| ==> r[a] != r[b]
  {
    forall a, b | 0 <= a < b < |r| ensures r[a] != r[b] {
      assert r == r[..b] + [r[b]] + r[b + 1..];
      assert r[a] in r[..b];
      IncreasingOnce(m, r[b]);
      assert multiset(r)[r[b]] == multiset(r[..b])[r[b]] + 1 + multiset(r[b + 1..])[r[b]];
    }
  }

  // ---------------------------------------------------------------------------
  // Delivery log: one entry per run of consecutive deliveries by the same coach.

  datatype LogEntry<D> = LogEntry(
    frame: nat,
    time: real,
    coachLabel: string,
    medicineApplied: real,
    totalApplied: real,
    clotReading: D)

  /** Sum of `medicine_applied` over the log. */
  function LogTotal<D>(log: seq<LogEntry<D>>): real {
    if log == [] then 0.0 else LogTotal(log[..|log| - 1]) + log[|log| - 1].medicineApplied
  }

  /** One delivery of `dispensed` by the coach labelled `entry.coachLabel`: a new
      entry (with 0.0 applied) is appended only when the log is empty or its last
      entry belongs to another coach; then the last entry is credited. */
  function Record<D>(log: seq<LogEntry<D>>, entry: LogEntry<D>, dispensed: real): seq<LogEntry<D>>
    requires entry.medicineApplied == 0.0
  {
    var withEntry := if log == [] || log[|log| - 1].coachLabel != entry.coachLabel then log + [entry] else log;
    var last := withEntry[|withEntry| - 1];
    withEntry[..|withEntry| - 1] + [last.(medicineApplied := last.medicineApplied + dispensed)]
  }

  /** A delivery leaves the log non-empty with the delivering coach last, adds
      exactly the dose to the logged total, and otherwise keeps every earlier
      entry: the last one is credited when it is the same coach's, and a new
      entry is appended after the whole old log when it is not. */
  lemma RecordFacts<D>(log: seq<LogEntry<D>>, entry: LogEntry<D>, dispensed: real)
    requires entry.medicineApplied == 0.0
    ensures var r := Record(log, entry, dispensed);
      && |r| > 0 && r[|r| - 1].coachLabel == entry.coachLabel
      && LogTotal(r) == LogTotal(log) + dispensed
      && ((log != [] && log[|log| - 1].coachLabel == entry.coachLabel) ==>
            |r| == |log| && r[..|r| - 1] == log[..|log| - 1])
      && ((log == [] || log[|log| - 1].coachLabel != entry.coachLabel) ==>
            |r| == |log| + 1 && r[..|log|] == log)
  {
    var r := Record(log, entry, dispensed);
    if log == [] || log[|log| - 1].coachLabel != entry.coachLabel {
      var withEntry := log + [entry];
      assert withEntry[..|withEntry| - 1] == log;
      assert r == log + [entry.(medicineApplied := dispensed)];
      assert r[..|r| - 1] == log;
    } else {
      var last := log[|log| - 1];
      assert r == log[..|log| - 1] + [last.(medicineApplied := last.medicineApplied + dispensed)];
      assert r[..|r| - 1] == log[..|log| - 1];
    }
  }

  /** Crediting a dose in the log keeps the logged total equal to the running total. */
  lemma LoggedStep<D>(log: seq<LogEntry<D>>, entry: LogEntry<D>, total: real, d: real)
    requires entry.medicineApplied == 0.0 && total == LogTotal(log)
    ensures total + d == LogTotal(Record(log, entry, d))
  {
    RecordFacts(log, entry, d);
  }
}
