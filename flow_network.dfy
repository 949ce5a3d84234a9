/** The network of the flow-redirection swarm (run_flow_redirection_swarm_sim.py):
    a trunk feeding three branches, one of them with a faulty valve; the sensor
    readings of a segment, the pathology the simulation starts from, the split
    of the flow over the branches and the weighted choice of the branch an
    agent enters. */
module FlowNetwork {
  import opened Basics
  import opened Numeric
  import opened Weighted

  datatype Role = Scout | Worker | Repair | Monitor

  // ---------------------------------------------------------------- sensors

  /** The readings `compute_sensors` stores in a segment's `sensors` dictionary. */
  datatype Sensors = Sensors(viscosity: real, impedance: real, reflectance: real, strain: real,
                             viscNorm: real, impNorm: real, reflNorm: real, strainNorm: real,
                             abnormal: real)

  /** The readings of a segment with the given pooling and reflux. */
  function SensorsFor(pooling: real, reflux: real): Sensors {
    var viscosity := 4.5 + 28.0 * pooling + 18.0 * reflux;
    var impedance := 1.0 + 60.0 * pooling + 35.0 * reflux;
    var reflectance := 0.10 + 0.45 * pooling + 0.25 * reflux;
    var strain := 0.15 + 0.6 * pooling + 0.9 * reflux;
    var viscNorm := Clamp((viscosity - 4.5) / 40.0, 0.0, 1.0);
    var impNorm := Clamp((impedance - 1.0) / 95.0, 0.0, 1.0);
    var reflNorm := Clamp((reflectance - 0.10) / 0.75, 0.0, 1.0);
    var strainNorm := Clamp(strain / 1.2, 0.0, 1.0);
    Sensors(viscosity, impedance, reflectance, strain, viscNorm, impNorm, reflNorm, strainNorm,
            (viscNorm + impNorm + reflNorm + strainNorm) / 4.0)
  }

  predicate SensorsInRange(s: Sensors) {
    InUnit(s.viscNorm) && InUnit(s.impNorm) && InUnit(s.reflNorm) && InUnit(s.strainNorm) && InUnit(s.abnormal)
  }

  /** Whatever the pooling and reflux, every normalised reading lies in [0,1]
      and so does their mean, the abnormality score. */
  lemma SensorsFacts(pooling: real, reflux: real)
    ensures SensorsInRange(SensorsFor(pooling, reflux))
  {
    var s := SensorsFor(pooling, reflux);
    assert 0.0 <= s.viscNorm + s.impNorm + s.reflNorm + s.strainNorm <= 4.0;
  }

  /** More pooling and more reflux never lower a normalised reading, so a
      worse segment reads at least as abnormal. */
  lemma SensorsMonotone(p0: real, r0: real, p1: real, r1: real)
    requires p0 <= p1 && 0.0 <= r0 <= r1
    ensures var s0 := SensorsFor(p0, r0);
            var s1 := SensorsFor(p1, r1);
            && s0.viscNorm <= s1.viscNorm && s0.impNorm <= s1.impNorm
            && s0.reflNorm <= s1.reflNorm && s0.strainNorm <= s1.strainNorm
            && s0.abnormal <= s1.abnormal
  {
    var s0 := SensorsFor(p0, r0);
    var s1 := SensorsFor(p1, r1);
    ClampMonotone((s0.viscosity - 4.5) / 40.0, (s1.viscosity - 4.5) / 40.0, 0.0, 1.0);
    ClampMonotone((s0.impedance - 1.0) / 95.0, (s1.impedance - 1.0) / 95.0, 0.0, 1.0);
    ClampMonotone((s0.reflectance - 0.10) / 0.75, (s1.reflectance - 0.10) / 0.75, 0.0, 1.0);
    ClampMonotone(s0.strain / 1.2, s1.strain / 1.2, 0.0, 1.0);
  }

  // ---------------------------------------------------------------- segments

  /** The state of one `VeinSegment`. */
  datatype SegmentView = SegmentView(
    segId: nat, children: seq<nat>, parent: Option<nat>, length: real, isFaulty: bool,
    beacon: real, mapping: real, pooling: real, reflux: real,
    valveCompetence: real, permeability: real, sensors: Option<Sensors>)

  /** `sensors.get("abnormal", 0.0)`. */
  function AbnormalOf(v: SegmentView): real {
    if v.sensors.Some? then v.sensors.value.abnormal else 0.0
  }

  /** A freshly constructed segment: no links yet, a competent valve, full
      permeability, every other scalar 0 and no readings. */
  function Pristine(segId: nat, length: real, isFaulty: bool): SegmentView {
    SegmentView(segId, [], None, length, isFaulty, 0.0, 0.0, 0.0, 0.0, 1.0, 1.0, None)
  }

  class VeinSegment {
    const segId: nat
    const start: Point
    const end: Point
    const name: string
    const length: real
    const isFaulty: bool
    var children: seq<nat>
    var parentId: Option<nat>
    var beacon: real
    var mapping: real
    var pooling: real
    var reflux: real
    var valveCompetence: real
    var permeability: real
    var sensors: Option<Sensors>

    function View(): SegmentView
      reads this
    {
      SegmentView(segId, children, parentId, length, isFaulty, beacon, mapping, pooling, reflux,
                  valveCompetence, permeability, sensors)
    }

    constructor (segId: nat, start: Point, end: Point, name: string, length: real, isFaulty: bool)
      requires HypotOf(start, end, length)
      ensures View() == Pristine(segId, length, isFaulty)
      ensures this.start == start && this.end == end && this.name == name
    {
      this.segId, this.start, this.end, this.name := segId, start, end, name;
      this.length, this.isFaulty := length, isFaulty;
      children, parentId := [], None;
      beacon, mapping, pooling, reflux := 0.0, 0.0, 0.0, 0.0;
      valveCompetence, permeability := 1.0, 1.0;
      sensors := None;
    }
  }

  function SegViewsOf(segments: seq<VeinSegment>): (vs: seq<SegmentView>)
    reads segments
    ensures |vs| == |segments| && forall k :: 0 <= k < |segments| ==> vs[k] == segments[k].View()
  {
    seq(|segments|, k requires 0 <= k < |segments| reads segments => segments[k].View())
  }

  ghost predicate DistinctSegments(segments: seq<VeinSegment>) {
    forall a, b :: 0 <= a < b < |segments| ==> segments[a] != segments[b]
  }

  /** The segment with its readings recomputed. */
  function WithSensors(v: SegmentView): SegmentView {
    v.(sensors := Some(SensorsFor(v.pooling, v.reflux)))
  }

  /** compute_sensors: stores the readings derived from the segment's present
      pooling and reflux; nothing else changes. */
  method ComputeSensors(seg: VeinSegment)
    modifies seg
    ensures seg.View() == WithSensors(old(seg.View()))
  {
    seg.sensors := Some(SensorsFor(seg.pooling, seg.reflux));
  }

  // ---------------------------------------------------------------- build_network

  const SegmentCount: nat := 4
  const TrunkId: nat := 0
  const FaultyId: nat := 2

  function NetworkStart(id: nat): Point {
    if id == 0 then Point(80.0, 320.0) else Point(280.0, 320.0)
  }

  function NetworkEnd(id: nat): Point {
    if id == 0 then Point(280.0, 320.0)
    else if id == 1 then Point(560.0, 240.0)
    else if id == 2 then Point(540.0, 400.0)
    else Point(520.0, 470.0)
  }

  function NetworkName(id: nat): string {
    if id == 0 then "Trunk" else if id == 1 then "Deep Path" else if id == 2 then "Superficial" else "Side Branch"
  }

  /** The hypot lengths of the four segments, supplied as inputs. */
  predicate NetworkLengths(lengths: seq<real>) {
    |lengths| == SegmentCount
    && forall k :: 0 <= k < SegmentCount ==> HypotOf(NetworkStart(k), NetworkEnd(k), lengths[k])
  }

  /** The four segments build_network returns: the trunk lists the three
      branches as children, and each branch has the trunk as parent. */
  function BuiltNetwork(lengths: seq<real>): (vs: seq<SegmentView>)
    requires |lengths| == SegmentCount
    ensures |vs| == SegmentCount
  {
    [Pristine(0, lengths[0], false).(children := [1, 2, 3]),
     Pristine(1, lengths[1], false).(parent := Some(0)),
     Pristine(2, lengths[2], true).(parent := Some(0)),
     Pristine(3, lengths[3], false).(parent := Some(0))]
  }

  /** The layout the simulation relies on and never changes: ids are list
      positions, lengths are positive, the trunk 0 has no parent and lists the
      branches 1, 2 and 3, each of which has the trunk as parent and no
      children, and segment 2 is the only faulty one. */
  predicate Layout(vs: seq<SegmentView>) {
    && |vs| == SegmentCount
    && (forall k :: 0 <= k < |vs| ==> vs[k].segId == k && vs[k].length > 0.0 && (vs[k].isFaulty <==> k == FaultyId))
    && vs[0].children == [1, 2, 3] && vs[0].parent == None
    && (forall k :: 0 < k < |vs| ==> vs[k].children == [] && vs[k].parent == Some(TrunkId))
  }

  /** Two segment lists with the same layout. */
  predicate SameLayout(a: seq<SegmentView>, b: seq<SegmentView>) {
    && |a| == |b|
    && forall k :: 0 <= k < |a| ==>
         && a[k].segId == b[k].segId && a[k].children == b[k].children && a[k].parent == b[k].parent
         && a[k].length == b[k].length && a[k].isFaulty == b[k].isFaulty
  }

  lemma SameLayoutKeeps(a: seq<SegmentView>, b: seq<SegmentView>)
    requires Layout(a) && SameLayout(a, b)
    ensures Layout(b)
  {
    assert b[0].children == a[0].children;
  }

  /** Every segment of the network has positive length. */
  lemma NetworkLengthsPositive(lengths: seq<real>)
    requires NetworkLengths(lengths)
    ensures forall k :: 0 <= k < SegmentCount ==> lengths[k] > 0.0
  {
    forall k | 0 <= k < SegmentCount
      ensures lengths[k] > 0.0
    {
      var dx := NetworkEnd(k).x - NetworkStart(k).x;
      var dy := NetworkEnd(k).y - NetworkStart(k).y;
      assert HypotOf(NetworkStart(k), NetworkEnd(k), lengths[k]);
      assert dx * dx + dy * dy > 0.0 by {
        assert dx != 0.0;
        assert dx * dx > 0.0;
      }
    }
  }

  /** What build_network promises: the trunk feeds the three branches, each
      branch has the trunk as parent, and segment 2 is the only faulty one. */
  lemma BuiltNetworkLayout(lengths: seq<real>)
    requires NetworkLengths(lengths)
    ensures Layout(BuiltNetwork(lengths))
  {
    NetworkLengthsPositive(lengths);
  }

  /** The list literal of build_network: four fresh, unlinked segments. */
  method CreateSegments(lengths: seq<real>) returns (segments: seq<VeinSegment>)
    requires NetworkLengths(lengths)
    ensures |segments| == SegmentCount && DistinctSegments(segments)
    ensures forall k :: 0 <= k < |segments| ==> fresh(segments[k])
    ensures forall k :: 0 <= k < |segments| ==>
              segments[k].View() == Pristine(k, lengths[k], k == FaultyId)
              && segments[k].start == NetworkStart(k) && segments[k].end == NetworkEnd(k)
              && segments[k].name == NetworkName(k)
  {
    var trunk := new VeinSegment(0, NetworkStart(0), NetworkEnd(0), NetworkName(0), lengths[0], false);
    var deep := new VeinSegment(1, NetworkStart(1), NetworkEnd(1), NetworkName(1), lengths[1], false);
    var superficial := new VeinSegment(2, NetworkStart(2), NetworkEnd(2), NetworkName(2), lengths[2], true);
    var side := new VeinSegment(3, NetworkStart(3), NetworkEnd(3), NetworkName(3), lengths[3], false);
    segments := [trunk, deep, superficial, side];
  }

  /** The links build_network sets after creating the segments: the trunk's
      children and each branch's parent. */
  method LinkBranches(segments: seq<VeinSegment>, ghost lengths: seq<real>)
    requires |segments| == SegmentCount == |lengths| && DistinctSegments(segments)
    requires forall k :: 0 <= k < SegmentCount ==> segments[k].View() == Pristine(k, lengths[k], k == FaultyId)
    modifies segments
    ensures SegViewsOf(segments) == BuiltNetwork(lengths)
  {
    segments[0].children := [1, 2, 3];
    segments[1].parentId := Some(0);
    segments[2].parentId := Some(0);
    segments[3].parentId := Some(0);
    ghost var built := BuiltNetwork(lengths);
    assert segments[0].View() == built[0] && segments[1].View() == built[1];
    assert segments[2].View() == built[2] && segments[3].View() == built[3];
  }

  /** build_network: four fresh segments, then the trunk's children and the
      branches' parents are set. */
  method BuildNetwork(lengths: seq<real>) returns (segments: seq<VeinSegment>)
    requires NetworkLengths(lengths)
    ensures DistinctSegments(segments)
    ensures forall k :: 0 <= k < |segments| ==> fresh(segments[k])
    ensures SegViewsOf(segments) == BuiltNetwork(lengths)
    ensures forall k :: 0 <= k < |segments| ==>
              segments[k].start == NetworkStart(k) && segments[k].end == NetworkEnd(k)
              && segments[k].name == NetworkName(k)
  {
    segments := CreateSegments(lengths);
    LinkBranches(segments, lengths);
  }

  // ---------------------------------------------------------------- initialize_pathology

  /** The faulty segment starts pooled behind a weak valve; the others nearly
      empty behind competent valves. */
  function WithPathology(v: SegmentView): SegmentView {
    v.(pooling := if v.isFaulty then 0.65 else 0.05,
       valveCompetence := if v.isFaulty then 0.2 else 0.95)
  }

  function PathologyAll(vs: seq<SegmentView>): (r: seq<SegmentView>)
    ensures |r| == |vs| && forall k :: 0 <= k < |vs| ==> r[k] == WithPathology(vs[k])
  {
    seq(|vs|, k requires 0 <= k < |vs| => WithPathology(vs[k]))
  }

  /** initialize_pathology: every segment gets the pooling and valve competence
      of its kind; nothing else changes. */
  method InitializePathology(segments: seq<VeinSegment>)
    requires DistinctSegments(segments)
    modifies segments
    ensures SegViewsOf(segments) == PathologyAll(old(SegViewsOf(segments)))
  {
    var k := 0;
    while k < |segments|
      invariant k <= |segments|
      invariant forall j :: 0 <= j < k ==> segments[j].View() == WithPathology(old(segments[j].View()))
      invariant forall j :: k <= j < |segments| ==> segments[j].View() == old(segments[j].View())
    {
      var seg := segments[k];
      if seg.isFaulty {
        seg.pooling := 0.65;
        seg.valveCompetence := 0.2;
      } else {
        seg.pooling := 0.05;
        seg.valveCompetence := 0.95;
      }
      k := k + 1;
    }
  }

  // ---------------------------------------------------------------- scalar ranges

  /** The six scalar fields lie in [0,1], the permeability never drops below
      0.05, and stored readings are normalised. */
  predicate SegmentInRange(v: SegmentView) {
    && InUnit(v.beacon) && InUnit(v.mapping) && InUnit(v.pooling) && InUnit(v.reflux)
    && InUnit(v.valveCompetence) && 0.05 <= v.permeability <= 1.0
    && (v.sensors.Some? ==> SensorsInRange(v.sensors.value))
  }

  predicate AllInRange(vs: seq<SegmentView>) {
    forall k :: 0 <= k < |vs| ==> SegmentInRange(vs[k])
  }

  /** The pathology leaves the built network in range, with the faulty
      segment pooled at 0.65 behind a valve of competence 0.2. */
  lemma PathologyInRange(lengths: seq<real>)
    requires NetworkLengths(lengths)
    ensures var vs := PathologyAll(BuiltNetwork(lengths));
            && Layout(vs) && AllInRange(vs)
            && vs[FaultyId].pooling == 0.65 && vs[FaultyId].valveCompetence == 0.2
            && forall k :: 0 <= k < |vs| && k != FaultyId ==> vs[k].pooling == 0.05 && vs[k].valveCompetence == 0.95
  {
    BuiltNetworkLayout(lengths);
    var built := BuiltNetwork(lengths);
    var vs := PathologyAll(built);
    assert SameLayout(built, vs);
    SameLayoutKeeps(built, vs);
  }

  // ---------------------------------------------------------------- compute_flow_shares

  predicate HasFaulty(vs: seq<SegmentView>) {
    exists k :: 0 <= k < |vs| && vs[k].isFaulty
  }

  /** The segment `next(seg for seg in segments if seg.is_faulty)` finds. */
  function FirstFaulty(vs: seq<SegmentView>): (k: nat)
    requires HasFaulty(vs)
    ensures k < |vs| && vs[k].isFaulty && forall j :: 0 <= j < k ==> !vs[j].isFaulty
    decreases |vs|
  {
    if vs[0].isFaulty then 0
    else
      assert HasFaulty(vs[1..]) by {
        var k :| 0 <= k < |vs| && vs[k].isFaulty;
        assert vs[1..][k - 1] == vs[k];
      }
      1 + FirstFaulty(vs[1..])
  }

  /** In the built layout the faulty segment is segment 2. */
  lemma FirstFaultyInLayout(vs: seq<SegmentView>)
    requires Layout(vs)
    ensures HasFaulty(vs) && FirstFaulty(vs) == FaultyId
  {
    assert vs[FaultyId].isFaulty;
  }

  /** The search for the faulty segment, as the generator walks the list. */
  method FindFaulty(segments: seq<VeinSegment>) returns (k: nat)
    requires HasFaulty(SegViewsOf(segments))
    ensures k == FirstFaulty(SegViewsOf(segments))
  {
    ghost var vs := SegViewsOf(segments);
    k := 0;
    while !segments[k].isFaulty
      invariant k <= FirstFaulty(vs)
      decreases FirstFaulty(vs) - k
    {
      k := k + 1;
    }
  }

  /** The share of the flow entering branches 1, 2 and 3. */
  datatype Shares = Shares(deep: real, superficial: real, side: real)

  /** `flow_shares.get(seg_id, default)`. */
  function ShareOf(s: Shares, id: nat, default: real): real {
    if id == 1 then s.deep else if id == 2 then s.superficial else if id == 3 then s.side else default
  }

  /** The plug closes the faulty branch down to a permeability of 0.05. */
  function Permeability(plugProgress: real): real {
    Clamp(1.0 - plugProgress, 0.05, 1.0)
  }

  /** The weight of the faulty branch: its permeability times a factor that
      grows with the competence of its valve. */
  function FaultyWeight(permeability: real, competence: real): real {
    0.9 * permeability * (0.35 + 0.65 * competence)
  }

  /** The weights 1, the faulty one and 0.7, each divided by their sum. */
  function SharesFor(permeability: real, competence: real): Shares
    requires 1.7 + FaultyWeight(permeability, competence) != 0.0
  {
    var w := FaultyWeight(permeability, competence);
    var total := 1.0 + w + 0.7;
    Shares(1.0 / total, w / total, 0.7 / total)
  }

  predicate SharesOk(s: Shares) {
    0.0 < s.deep <= 1.0 && 0.0 < s.superficial <= 1.0 && 0.0 < s.side <= 1.0
  }

  /** For a valve competence in [0,1] the shares are positive and add up to 1. */
  lemma SharesFacts(permeability: real, competence: real)
    requires 0.05 <= permeability <= 1.0 && InUnit(competence)
    ensures 1.7 + FaultyWeight(permeability, competence) > 0.0
    ensures var s := SharesFor(permeability, competence);
            SharesOk(s) && s.deep + s.superficial + s.side == 1.0
  {
    var w := FaultyWeight(permeability, competence);
    var factor := 0.35 + 0.65 * competence;
    assert 0.35 <= factor <= 1.0;
    assert 0.0 < w <= 0.9 by {
      var a := 0.9 * permeability;
      assert 0.0 < a <= 0.9;
      assert w == a * factor;
      assert a * factor > 0.0;
      assert a * (1.0 - factor) >= 0.0;
    }
    var total := 1.0 + w + 0.7;
    assert 1.0 / total + w / total + 0.7 / total == (1.0 + w + 0.7) / total;
  }

  /** A more permeable or more competent faulty branch weighs no less. */
  lemma FaultyWeightMonotone(p0: real, c0: real, p1: real, c1: real)
    requires 0.0 <= p0 <= p1 && 0.0 <= c0 <= c1
    ensures 0.0 <= FaultyWeight(p0, c0) <= FaultyWeight(p1, c1)
  {
    var f0, f1 := 0.35 + 0.65 * c0, 0.35 + 0.65 * c1;
    assert 0.0 < f0 <= f1;
    assert (0.9 * p0) * f0 <= (0.9 * p1) * f0 by {
      assert (0.9 * p1 - 0.9 * p0) * f0 >= 0.0;
    }
    assert (0.9 * p1) * f0 <= (0.9 * p1) * f1 by {
      assert (0.9 * p1) * (f1 - f0) >= 0.0;
    }
  }

  /** w / (k + w) grows and k / (k + w) shrinks with the weight w. */
  lemma QuotientsOrdered(k: real, w0: real, w1: real)
    requires 0.0 < k && 0.0 <= w0 <= w1
    ensures w0 / (k + w0) <= w1 / (k + w1)
    ensures k / (k + w1) <= k / (k + w0)
  {
    var t0, t1 := k + w0, k + w1;
    var q0, q1 := k / t0, k / t1;
    assert q1 * t1 == q0 * t0;
    assert q0 * (t1 - t0) >= 0.0;
    assert w0 / t0 + q0 == (w0 + k) / t0 == t0 / t0;
    assert w1 / t1 + q1 == (w1 + k) / t1 == t1 / t1;
    assert t0 / t0 == 1.0 && t1 / t1 == 1.0;
  }

  /** A more permeable faulty branch, or one with a more competent valve, takes
      no smaller a share of the flow, and the deep and side branches no larger. */
  lemma SharesMonotone(p0: real, c0: real, p1: real, c1: real)
    requires 0.05 <= p0 <= p1 <= 1.0 && 0.0 <= c0 <= c1 <= 1.0
    ensures 1.7 + FaultyWeight(p0, c0) > 0.0 && 1.7 + FaultyWeight(p1, c1) > 0.0
    ensures SharesFor(p0, c0).superficial <= SharesFor(p1, c1).superficial
    ensures SharesFor(p1, c1).deep <= SharesFor(p0, c0).deep
    ensures SharesFor(p1, c1).side <= SharesFor(p0, c0).side
  {
    var w0, w1 := FaultyWeight(p0, c0), FaultyWeight(p1, c1);
    FaultyWeightMonotone(p0, c0, p1, c1);
    QuotientsOrdered(1.7, w0, w1);
    var t0, t1 := 1.7 + w0, 1.7 + w1;
    assert 1.0 + w0 + 0.7 == t0 && 1.0 + w1 + 0.7 == t1;
    assert 1.0 / t1 <= 1.0 / t0 by {
      assert 1.7 / t1 <= 1.7 / t0;
      assert 1.0 / t1 == (1.7 / t1) / 1.7 && 1.0 / t0 == (1.7 / t0) / 1.7;
    }
    assert 0.7 / t1 <= 0.7 / t0 by {
      assert 0.7 / t1 == 0.7 * (1.0 / t1) && 0.7 / t0 == 0.7 * (1.0 / t0);
    }
  }

  /** The segments after compute_flow_shares: the faulty one has its
      permeability set by the plug progress. */
  function WithPermeability(vs: seq<SegmentView>, plugProgress: real): (r: seq<SegmentView>)
    requires HasFaulty(vs)
    ensures |r| == |vs|
  {
    var f := FirstFaulty(vs);
    vs[f := vs[f].(permeability := Permeability(plugProgress))]
  }

  /** compute_flow_shares can divide by the total weight. */
  predicate FlowDefined(vs: seq<SegmentView>, plugProgress: real) {
    HasFaulty(vs) && 1.7 + FaultyWeight(Permeability(plugProgress), vs[FirstFaulty(vs)].valveCompetence) != 0.0
  }

  /** The shares compute_flow_shares returns for the segments `vs`. */
  function FlowShares(vs: seq<SegmentView>, plugProgress: real): Shares
    requires FlowDefined(vs, plugProgress)
  {
    SharesFor(Permeability(plugProgress), vs[FirstFaulty(vs)].valveCompetence)
  }

  /** compute_flow_shares: sets the faulty segment's permeability and returns
      the shares of the three branches. */
  method ComputeFlowShares(segments: seq<VeinSegment>, plugProgress: real) returns (shares: Shares)
    requires DistinctSegments(segments) && FlowDefined(SegViewsOf(segments), plugProgress)
    modifies segments
    ensures SegViewsOf(segments) == WithPermeability(old(SegViewsOf(segments)), plugProgress)
    ensures shares == FlowShares(old(SegViewsOf(segments)), plugProgress)
  {
    ghost var vs := SegViewsOf(segments);
    var f := FindFaulty(segments);
    var faulty := segments[f];
    ghost var competence := faulty.valveCompetence;
    assert competence == vs[f].valveCompetence;
    faulty.permeability := Clamp(1.0 - plugProgress, 0.05, 1.0);
    var w := 0.9 * faulty.permeability * (0.35 + 0.65 * faulty.valveCompetence);
    var total := 1.0 + w + 0.7;
    shares := Shares(1.0 / total, w / total, 0.7 / total);
    assert shares == SharesFor(Permeability(plugProgress), competence);
    assert SegViewsOf(segments) == vs[f := faulty.View()];
  }

  // ---------------------------------------------------------------- choose_branch

  /** The weight of branch `v`: its share plus 0.05, the beacon bias when a
      non-Monitor considers the faulty branch, and a bonus for unmapped
      branches when a Monitor chooses. */
  function BranchWeight(s: Shares, id: nat, v: SegmentView, role: Role, beaconBias: real): real {
    var w := ShareOf(s, id, 0.0) + 0.05;
    var biased := if role != Monitor && v.isFaulty then w + beaconBias else w;
    if role == Monitor then biased + (1.0 - v.mapping) * 0.4 else biased
  }

  function BranchWeights(s: Shares, vs: seq<SegmentView>, role: Role, beaconBias: real): (w: seq<real>)
    requires |vs| >= SegmentCount
    ensures |w| == 3
  {
    [BranchWeight(s, 1, vs[1], role, beaconBias), BranchWeight(s, 2, vs[2], role, beaconBias),
     BranchWeight(s, 3, vs[3], role, beaconBias)]
  }

  /** The branch choose_branch returns for the draw `u`: the first branch whose
      cumulative weight reaches `u` times the total, or branch 3. */
  function Branch(s: Shares, vs: seq<SegmentView>, role: Role, u: real, beaconBias: real): (id: nat)
    requires |vs| >= SegmentCount
    ensures 1 <= id <= 3
  {
    PickBranch(BranchWeights(s, vs, role, beaconBias), u)
  }

  /** The branch id the cumulative pick `u` times the total lands on. */
  function PickBranch(w: seq<real>, u: real): (id: nat)
    requires |w| == 3
    ensures 1 <= id <= 3
  {
    1 + FirstReaching(w, u * Total(w))
  }

  /** With non-negative shares, a non-negative bias and mappings at most 1,
      every branch weighs at least 0.05. */
  lemma BranchWeightsPositive(s: Shares, vs: seq<SegmentView>, role: Role, beaconBias: real)
    requires |vs| >= SegmentCount && SharesOk(s) && beaconBias >= 0.0
    requires forall k :: 0 <= k < |vs| ==> vs[k].mapping <= 1.0
    ensures forall j :: 0 <= j < 3 ==> BranchWeights(s, vs, role, beaconBias)[j] >= 0.05
  {
  }

  /** Over three positive weights, the draw that lands the cumulative pick
      halfway into the slice of item `b - 1` selects it. */
  lemma SliceReachable(w: seq<real>, b: nat) returns (u: real)
    requires |w| == 3 && 1 <= b <= 3
    requires forall j :: 0 <= j < 3 ==> w[j] > 0.0
    ensures IsDraw(u) && PickBranch(w, u) == b
  {
    var below := PrefixSum(w, b - 1);
    var pick := below + w[b - 1] / 2.0;
    assert PrefixSum(w, b) == below + w[b - 1];
    PrefixSumMonotone(w, b, 3);
    PrefixSumMonotone(w, 0, b - 1);
    FirstReachingInSlice(w, pick, b - 1);
    u := DrawFor(pick, Total(w));
    PickBranchAt(w, u, pick);
  }

  /** PickBranch lands where the cumulative pick `u * total` does. */
  lemma PickBranchAt(w: seq<real>, u: real, pick: real)
    requires |w| == 3 && u * Total(w) == pick
    ensures PickBranch(w, u) == 1 + FirstReaching(w, pick)
  {
  }

  /** choose_branch can send an agent down any branch of positive weight:
      for each of the three there is a draw that picks it. */
  lemma BranchReachable(s: Shares, vs: seq<SegmentView>, role: Role, beaconBias: real, b: nat)
    requires |vs| >= SegmentCount && 1 <= b <= 3
    requires forall j :: 0 <= j < 3 ==> BranchWeights(s, vs, role, beaconBias)[j] > 0.0
    ensures exists u :: IsDraw(u) && Branch(s, vs, role, u, beaconBias) == b
  {
    var w := BranchWeights(s, vs, role, beaconBias);
    var u := SliceReachable(w, b);
    assert Branch(s, vs, role, u, beaconBias) == PickBranch(w, u);
  }

  /** choose_branch: the weights of branches 1, 2 and 3, then the cumulative
      pick. */
  method ChooseBranch(s: Shares, segments: seq<VeinSegment>, role: Role, u: real, beaconBias: real)
    returns (id: nat)
    requires |segments| >= SegmentCount
    ensures id == Branch(s, SegViewsOf(segments), role, u, beaconBias)
  {
    ghost var vs := SegViewsOf(segments);
    var branchIds := [1, 2, 3];
    var weights := [];
    var i := 0;
    while i < 3
      invariant i <= 3 && |weights| == i
      invariant forall j :: 0 <= j < i ==> weights[j] == BranchWeight(s, j + 1, vs[j + 1], role, beaconBias)
    {
      var seg := segments[branchIds[i]];
      var weight := ShareOf(s, branchIds[i], 0.0) + 0.05;
      if role != Monitor && seg.isFaulty {
        weight := weight + beaconBias;
      }
      if role == Monitor {
        weight := weight + (1.0 - seg.mapping) * 0.4;
      }
      weights := weights + [weight];
      i := i + 1;
    }
    assert weights == BranchWeights(s, vs, role, beaconBias);
    id := PickFrom(weights, u);
  }

  /** The second half of choose_branch: subtract the weights of branches 1,
      2 and 3 in turn from the pick and stop where it is used up. */
  method PickFrom(weights: seq<real>, u: real) returns (id: nat)
    requires |weights| == 3
    ensures id == PickBranch(weights, u)
  {
    var branchIds := [1, 2, 3];
    var pick := u * Total(weights);
    ghost var target := pick;
    assert PickBranch(weights, u) == 1 + FirstReaching(weights, target);
    var i := 0;
    while i < 3
      invariant 0 <= i <= 3
      invariant pick == target - PrefixSum(weights, i)
      invariant forall j :: 0 < j <= i ==> PrefixSum(weights, j) < target
    {
      assert PrefixSum(weights, i + 1) == PrefixSum(weights, i) + weights[i];
      pick := pick - weights[i];
      if pick <= 0.0 {
        FirstReachingIs(weights, target, i);
        return branchIds[i];
      }
      i := i + 1;
    }
    FirstReachingIs(weights, target, 2);
    return branchIds[2];
  }
}
