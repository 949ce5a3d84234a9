/** The vein tree of the role-based swarm (run_swarm_vein_sim.py): six segments,
    each carrying scalar health fields in [0,1] and the sensor readings derived
    from them, the pathology the simulation starts from, the per-role score of a
    segment and the weighted pick of the segment an agent moves on to. */
module SwarmVein {
  import opened Basics
  import opened Numeric
  import opened Weighted

  datatype Role = Scout | Worker | Support | Monitor

  // ---------------------------------------------------------------- sensor fields

  /** The readings `compute_fields` stores in a segment's `fields` dictionary. */
  datatype Fields = Fields(viscosity: real, impedance: real, reflectance: real, strain: real,
                           viscNorm: real, impNorm: real, reflNorm: real, strainNorm: real,
                           abnormal: real)

  /** Wall strain before any scaffold relief. */
  function RawStrain(pooling: real, spike: real): real {
    0.15 + 0.55 * pooling + 1.05 * spike
  }

  /** The factor by which a deployed scaffold relieves strain. */
  function ScaffoldRelief(scaffold: real): (f: real)
    ensures 0.35 <= f
    ensures scaffold >= 0.0 ==> f <= 1.0
  {
    Max(0.35, 1.0 - 0.6 * scaffold)
  }

  function Viscosity(blockage: real, inflammation: real, pooling: real): real {
    4.5 + 32.0 * blockage + 6.5 * inflammation + 10.0 * pooling
  }

  function Impedance(blockage: real, inflammation: real, pooling: real): real {
    1.0 + 70.0 * blockage + 12.0 * inflammation + 14.0 * pooling
  }

  function Reflectance(blockage: real, inflammation: real, pooling: real): real {
    0.10 + 0.60 * blockage + 0.22 * inflammation + 0.10 * pooling
  }

  /** Wall strain, relieved by a scaffold above 0.01. */
  function Strain(pooling: real, spike: real, scaffold: real): real {
    if scaffold > 0.01 then RawStrain(pooling, spike) * ScaffoldRelief(scaffold) else RawStrain(pooling, spike)
  }

  /** compute_fields: four raw readings blended linearly from the health fields,
      each normalised into [0,1] by clamping, and `abnormal` their mean. */
  function FieldsFor(blockage: real, inflammation: real, pooling: real, spike: real, scaffold: real)
    : (f: Fields)
    ensures InUnit(f.viscNorm) && InUnit(f.impNorm) && InUnit(f.reflNorm) && InUnit(f.strainNorm)
    ensures f.abnormal == (f.viscNorm + f.impNorm + f.reflNorm + f.strainNorm) / 4.0
    ensures InUnit(f.abnormal)
  {
    var viscosity := Viscosity(blockage, inflammation, pooling);
    var impedance := Impedance(blockage, inflammation, pooling);
    var reflectance := Reflectance(blockage, inflammation, pooling);
    var strain := Strain(pooling, spike, scaffold);
    var viscNorm := Clamp((viscosity - 4.5) / 40.0, 0.0, 1.0);
    var impNorm := Clamp((impedance - 1.0) / 95.0, 0.0, 1.0);
    var reflNorm := Clamp((reflectance - 0.10) / 0.75, 0.0, 1.0);
    var strainNorm := Clamp(strain / 1.2, 0.0, 1.0);
    Fields(viscosity, impedance, reflectance, strain, viscNorm, impNorm, reflNorm, strainNorm,
           (viscNorm + impNorm + reflNorm + strainNorm) / 4.0)
  }

  lemma ScaleMonotone(a: real, b: real, q: real)
    requires a <= b && q >= 0.0
    ensures a * q <= b * q
  {
    assert (b - a) * q >= 0.0;
  }

  /** A scaffold above 0.01 scales the strain by its relief factor and so never
      raises it (for non-negative pooling and spike), nor lowers it below 35%;
      a scaffold at or below 0.01 leaves the raw strain. */
  lemma ScaffoldEffect(pooling: real, spike: real, scaffold: real)
    requires pooling >= 0.0 && spike >= 0.0 && scaffold >= 0.0
    ensures scaffold <= 0.01 ==> Strain(pooling, spike, scaffold) == RawStrain(pooling, spike)
    ensures 0.35 * RawStrain(pooling, spike) <= Strain(pooling, spike, scaffold) <= RawStrain(pooling, spike)
  {
    var r := RawStrain(pooling, spike);
    if scaffold > 0.01 {
      var q := ScaffoldRelief(scaffold);
      ScaleMonotone(0.35, q, r);
      ScaleMonotone(q, 1.0, r);
    }
  }

  /** More blockage, inflammation or pooling (spike and scaffold fixed) never
      lowers any normalised reading, so a sicker segment reads at least as
      abnormal. */
  lemma FieldsMonotone(b0: real, i0: real, p0: real, b1: real, i1: real, p1: real, spike: real, scaffold: real)
    requires b0 <= b1 && i0 <= i1 && p0 <= p1 && scaffold >= 0.0
    ensures var f0 := FieldsFor(b0, i0, p0, spike, scaffold);
            var f1 := FieldsFor(b1, i1, p1, spike, scaffold);
            && f0.viscNorm <= f1.viscNorm && f0.impNorm <= f1.impNorm
            && f0.reflNorm <= f1.reflNorm && f0.strainNorm <= f1.strainNorm
            && f0.abnormal <= f1.abnormal
  {
    ClampMonotone((Viscosity(b0, i0, p0) - 4.5) / 40.0, (Viscosity(b1, i1, p1) - 4.5) / 40.0, 0.0, 1.0);
    ClampMonotone((Impedance(b0, i0, p0) - 1.0) / 95.0, (Impedance(b1, i1, p1) - 1.0) / 95.0, 0.0, 1.0);
    ClampMonotone((Reflectance(b0, i0, p0) - 0.10) / 0.75, (Reflectance(b1, i1, p1) - 0.10) / 0.75, 0.0, 1.0);
    StrainMonotone(p0, p1, spike, scaffold);
    ClampMonotone(Strain(p0, spike, scaffold) / 1.2, Strain(p1, spike, scaffold) / 1.2, 0.0, 1.0);
  }

  /** More pooling (spike and scaffold fixed) never lowers the wall strain. */
  lemma StrainMonotone(p0: real, p1: real, spike: real, scaffold: real)
    requires p0 <= p1 && scaffold >= 0.0
    ensures Strain(p0, spike, scaffold) <= Strain(p1, spike, scaffold)
  {
    var r0, r1 := RawStrain(p0, spike), RawStrain(p1, spike);
    assert r0 <= r1;
    if scaffold > 0.01 {
      var q := ScaffoldRelief(scaffold);
      assert Strain(p0, spike, scaffold) == r0 * q && Strain(p1, spike, scaffold) == r1 * q;
      ScaleMonotone(r0, r1, q);
    }
  }

  // ---------------------------------------------------------------- segments

  /** The initial (blockage, inflammation, pooling) a segment is reset to. */
  datatype Baseline = Baseline(blockage: real, inflammation: real, pooling: real)

  /** The state of one `VeinSegment`. */
  datatype SegmentView = SegmentView(
    segId: nat, children: seq<nat>, parent: Option<nat>, length: real,
    blockage: real, inflammation: real, pooling: real,
    beacon: real, mapping: real, pressureSpike: real, scaffold: real,
    affected: bool, fields: Option<Fields>, initialState: Option<Baseline>)

  /** `fields.get("strain_norm", 0.0)`. */
  function StrainNormOf(v: SegmentView): real {
    if v.fields.Some? then v.fields.value.strainNorm else 0.0
  }

  /** `fields.get("abnormal", 0.0)`. */
  function AbnormalOf(v: SegmentView): real {
    if v.fields.Some? then v.fields.value.abnormal else 0.0
  }

  predicate BaselineInRange(b: Baseline) {
    InUnit(b.blockage) && InUnit(b.inflammation) && InUnit(b.pooling)
  }

  /** The seven scalar health fields lie in [0,1], the stored readings are
      normalised, and the baseline is one to reset to. */
  predicate SegmentInRange(v: SegmentView) {
    && InUnit(v.blockage) && InUnit(v.inflammation) && InUnit(v.pooling)
    && InUnit(v.beacon) && InUnit(v.mapping) && InUnit(v.pressureSpike) && InUnit(v.scaffold)
    && (v.fields.Some? ==> InUnit(v.fields.value.strainNorm) && InUnit(v.fields.value.abnormal))
    && v.initialState.Some? && BaselineInRange(v.initialState.value)
  }

  /** A freshly constructed segment: no parent yet, every scalar 0, no fields. */
  function Pristine(segId: nat, children: seq<nat>, length: real): SegmentView {
    SegmentView(segId, children, None, length, 0.0, 0.0, 0.0, 0.0, 0.0, 0.0, 0.0, false, None, None)
  }

  class VeinSegment {
    const segId: nat
    const start: Point
    const end: Point
    const children: seq<nat>
    const name: string
    const length: real
    var parentId: Option<nat>
    var blockage: real
    var inflammation: real
    var pooling: real
    var beacon: real
    var mapping: real
    var pressureSpike: real
    var scaffold: real
    var affected: bool
    var fields: Option<Fields>
    var initialState: Option<Baseline>

    function View(): SegmentView
      reads this
    {
      SegmentView(segId, children, parentId, length, blockage, inflammation, pooling,
                  beacon, mapping, pressureSpike, scaffold, affected, fields, initialState)
    }

    constructor (segId: nat, start: Point, end: Point, children: seq<nat>, name: string, length: real)
      requires HypotOf(start, end, length)
      ensures View() == Pristine(segId, children, length)
      ensures this.start == start && this.end == end && this.name == name
    {
      this.segId, this.start, this.end := segId, start, end;
      this.children, this.name, this.length := children, name, length;
      parentId := None;
      blockage, inflammation, pooling := 0.0, 0.0, 0.0;
      beacon, mapping, pressureSpike, scaffold := 0.0, 0.0, 0.0, 0.0;
      affected := false;
      fields := None;
      initialState := None;
    }

    /** compute_fields: stores the readings derived from the present health
        fields and returns them; nothing else changes. */
    method ComputeFields() returns (f: Fields)
      modifies this
      ensures f == FieldsFor(old(blockage), old(inflammation), old(pooling), old(pressureSpike), old(scaffold))
      ensures View() == old(View()).(fields := Some(f))
    {
      f := FieldsFor(blockage, inflammation, pooling, pressureSpike, scaffold);
      fields := Some(f);
    }
  }

  function SegViewsOf(segments: seq<VeinSegment>): (vs: seq<SegmentView>)
    reads segments
    ensures |vs| == |segments| && forall k :: 0 <= k < |segments| ==> vs[k] == segments[k].View()
  {
    seq(|segments|, k requires 0 <= k < |segments| reads segments => segments[k].View())
  }

  ghost predicate DistinctSegments(segments: seq<VeinSegment>) {
    forall a, b :: 0 <= a < b < |segments| ==> segments[a] != segments[b]
  }

  // ---------------------------------------------------------------- the vein tree

  const SegmentCount: nat := 6

  /** The children lists of build_vein_network: trunk 0 feeds 1 and 2, 1 feeds the
      leaves 3 and 4, 2 feeds the leaf 5. */
  function NetworkChildren(id: nat): seq<nat> {
    if id == 0 then [1, 2] else if id == 1 then [3, 4] else if id == 2 then [5] else []
  }

  function NetworkStart(id: nat): Point {
    if id == 0 then Point(80.0, 300.0)
    else if id <= 2 then Point(260.0, 300.0)
    else if id <= 4 then Point(430.0, 210.0)
    else Point(430.0, 390.0)
  }

  function NetworkEnd(id: nat): Point {
    if id == 0 then Point(260.0, 300.0)
    else if id == 1 then Point(430.0, 210.0)
    else if id == 2 then Point(430.0, 390.0)
    else if id == 3 then Point(730.0, 150.0)
    else if id == 4 then Point(720.0, 250.0)
    else Point(730.0, 450.0)
  }

  function NetworkName(id: nat): string {
    if id == 0 then "Trunk" else if id == 1 then "Upper" else if id == 2 then "Lower"
    else if id == 3 then "Upper-R" else if id == 4 then "Mid-R" else "Lower-R"
  }

  /** The hypot lengths of the six segments, supplied as inputs. */
  predicate NetworkLengths(lengths: seq<real>) {
    |lengths| == SegmentCount
    && forall k :: 0 <= k < SegmentCount ==> HypotOf(NetworkStart(k), NetworkEnd(k), lengths[k])
  }

  /** The parent the linking loop has written on segment `c` after visiting
      segments 0..n-1: the last of them that lists `c`. */
  function LinkedParent(c: nat, n: nat): Option<nat> {
    if n == 0 then None
    else if c in NetworkChildren(n - 1) then Some(n - 1)
    else LinkedParent(c, n - 1)
  }

  /** The six segments build_vein_network returns. */
  function BuiltNetwork(lengths: seq<real>): (vs: seq<SegmentView>)
    requires |lengths| == SegmentCount
    ensures |vs| == SegmentCount
  {
    seq(SegmentCount, k requires 0 <= k < SegmentCount =>
      Pristine(k, NetworkChildren(k), lengths[k]).(parent := LinkedParent(k, SegmentCount)))
  }

  /** A well-formed vein tree: ids are list positions, every child id is a later
      valid position whose parent is the segment listing it, the root 0 has no
      parent, and every other segment has an earlier parent that lists it. */
  predicate IsTree(vs: seq<SegmentView>) {
    && |vs| > 0
    && (forall k :: 0 <= k < |vs| ==> vs[k].segId == k)
    && (forall k, c :: 0 <= k < |vs| && c in vs[k].children ==> LinksBack(vs, k, c))
    && vs[0].parent == None
    && (forall c :: 0 < c < |vs| ==> HasListingParent(vs, c))
  }

  /** Child `c` of segment `k` is a later segment whose parent is `k`. */
  predicate LinksBack(vs: seq<SegmentView>, k: nat, c: nat) {
    k < c < |vs| && vs[c].parent == Some(k)
  }

  /** Segment `c` has an earlier parent that lists it among its children. */
  predicate HasListingParent(vs: seq<SegmentView>, c: nat)
    requires c < |vs|
  {
    vs[c].parent.Some? && vs[c].parent.value < c && c in vs[vs[c].parent.value].children
  }

  /** The parent of each segment, as build_vein_network links them. */
  function NetworkParent(id: nat): Option<nat> {
    if id == 0 then None else if id <= 2 then Some(0) else if id <= 4 then Some(1) else Some(2)
  }

  /** The linked parents are those of the table above. */
  lemma BuiltNetworkShape(lengths: seq<real>)
    requires |lengths| == SegmentCount
    ensures forall k :: 0 <= k < SegmentCount ==>
              var v := BuiltNetwork(lengths)[k];
              v.segId == k && v.children == NetworkChildren(k) && v.parent == NetworkParent(k)
  {
    assert LinkedParent(0, 6) == None;
    assert LinkedParent(1, 6) == Some(0) && LinkedParent(2, 6) == Some(0);
    assert LinkedParent(3, 6) == Some(1) && LinkedParent(4, 6) == Some(1);
    assert LinkedParent(5, 6) == Some(2);
  }

  /** Every child listed in the built network is a later segment whose parent
      is the segment listing it. */
  lemma BuiltChildrenLinked(lengths: seq<real>)
    requires |lengths| == SegmentCount
    ensures var vs := BuiltNetwork(lengths);
            forall k, c :: 0 <= k < |vs| && c in vs[k].children ==> LinksBack(vs, k, c)
  {
    var vs := BuiltNetwork(lengths);
    BuiltNetworkShape(lengths);
    forall k, c | 0 <= k < |vs| && c in vs[k].children
      ensures LinksBack(vs, k, c)
    {
      if k == 0 {
        assert c == 1 || c == 2;
      } else if k == 1 {
        assert c == 3 || c == 4;
      } else if k == 2 {
        assert c == 5;
      }
    }
  }

  /** Every segment but the trunk has an earlier parent that lists it. */
  lemma BuiltParentsListed(lengths: seq<real>)
    requires |lengths| == SegmentCount
    ensures var vs := BuiltNetwork(lengths);
            forall c :: 0 < c < |vs| ==> HasListingParent(vs, c)
  {
    var vs := BuiltNetwork(lengths);
    BuiltNetworkShape(lengths);
    forall c | 0 < c < |vs|
      ensures HasListingParent(vs, c)
    {
      assert vs[c].parent == NetworkParent(c);
    }
  }

  /** What build_vein_network promises: a tree in which 1 and 2 hang off the trunk,
      3 and 4 off segment 1 and 5 off segment 2. */
  lemma BuiltNetworkIsTree(lengths: seq<real>)
    requires |lengths| == SegmentCount
    ensures IsTree(BuiltNetwork(lengths))
    ensures var vs := BuiltNetwork(lengths);
            && vs[1].parent == Some(0) && vs[2].parent == Some(0)
            && vs[3].parent == Some(1) && vs[4].parent == Some(1) && vs[5].parent == Some(2)
  {
    BuiltNetworkShape(lengths);
    BuiltChildrenLinked(lengths);
    BuiltParentsListed(lengths);
  }

  /** Every segment of the network has positive length. */
  lemma NetworkLengthsPositive(lengths: seq<real>)
    requires NetworkLengths(lengths)
    ensures forall k :: 0 <= k < SegmentCount ==> lengths[k] > 0.0
  {
    forall k | 0 <= k < SegmentCount
      ensures lengths[k] > 0.0
    {
      var dx := NetworkEnd(k).x - NetworkStart(k).x;
      var dy := NetworkEnd(k).y - NetworkStart(k).y;
      assert HypotOf(NetworkStart(k), NetworkEnd(k), lengths[k]);
      assert dx * dx + dy * dy > 0.0 by {
        assert dx != 0.0;
        assert dx * dx > 0.0;
      }
    }
  }

  /** The six segments of build_vein_network, before linking. */
  method CreateSegments(lengths: seq<real>) returns (segments: seq<VeinSegment>)
    requires NetworkLengths(lengths)
    ensures |segments| == SegmentCount && DistinctSegments(segments)
    ensures forall k :: 0 <= k < |segments| ==> fresh(segments[k])
    ensures forall k :: 0 <= k < |segments| ==>
              segments[k].View() == Pristine(k, NetworkChildren(k), lengths[k])
              && segments[k].start == NetworkStart(k) && segments[k].end == NetworkEnd(k)
              && segments[k].name == NetworkName(k)
  {
    segments := [];
    var k := 0;
    while k < SegmentCount
      invariant k <= SegmentCount && |segments| == k && DistinctSegments(segments)
      invariant forall j :: 0 <= j < k ==> fresh(segments[j])
      invariant forall j :: 0 <= j < k ==>
                  segments[j].View() == Pristine(j, NetworkChildren(j), lengths[j])
                  && segments[j].start == NetworkStart(j) && segments[j].end == NetworkEnd(j)
                  && segments[j].name == NetworkName(j)
    {
      var seg := new VeinSegment(k, NetworkStart(k), NetworkEnd(k), NetworkChildren(k), NetworkName(k), lengths[k]);
      segments := segments + [seg];
      k := k + 1;
    }
  }

  /** The inner linking loop for segment `i`: each of its children takes `i`
      as parent. */
  method AdoptChildren(segments: seq<VeinSegment>, i: nat)
    requires |segments| == SegmentCount && DistinctSegments(segments) && i < SegmentCount
    requires segments[i].children == NetworkChildren(i)
    modifies set s | s in segments
    ensures forall j :: 0 <= j < SegmentCount ==>
              segments[j].parentId == (if j in NetworkChildren(i) then Some(i) else old(segments[j].parentId))
              && segments[j].View() == old(segments[j].View()).(parent := segments[j].parentId)
  {
    var children := segments[i].children;
    var m := 0;
    while m < |children|
      invariant m <= |children|
      invariant forall j :: 0 <= j < SegmentCount ==>
                  segments[j].parentId == (if j in children[..m] then Some(i) else old(segments[j].parentId))
      invariant forall j :: 0 <= j < SegmentCount ==>
                  segments[j].View() == old(segments[j].View()).(parent := segments[j].parentId)
    {
      assert children[..m + 1] == children[..m] + [children[m]];
      segments[children[m]].parentId := Some(i);
      m := m + 1;
    }
    assert children[..m] == children;
  }

  /** The linking loop of build_vein_network: every child's parent becomes the
      segment listing it; nothing else changes. */
  method LinkParents(segments: seq<VeinSegment>)
    requires |segments| == SegmentCount && DistinctSegments(segments)
    requires forall j :: 0 <= j < SegmentCount ==>
               segments[j].children == NetworkChildren(j) && segments[j].parentId == None
    modifies set s | s in segments
    ensures forall j :: 0 <= j < SegmentCount ==>
              segments[j].View() == old(segments[j].View()).(parent := LinkedParent(j, SegmentCount))
  {
    var i := 0;
    while i < SegmentCount
      invariant i <= SegmentCount
      invariant forall j :: 0 <= j < SegmentCount ==> segments[j].parentId == LinkedParent(j, i)
      invariant forall j :: 0 <= j < SegmentCount ==>
                  segments[j].View() == old(segments[j].View()).(parent := segments[j].parentId)
    {
      AdoptChildren(segments, i);
      i := i + 1;
    }
  }

  /** build_vein_network: six fresh segments, then every child's parent is set to
      the segment listing it. */
  method BuildVeinNetwork(lengths: seq<real>) returns (segments: seq<VeinSegment>)
    requires NetworkLengths(lengths)
    ensures |segments| == SegmentCount && DistinctSegments(segments)
    ensures forall k :: 0 <= k < |segments| ==> fresh(segments[k])
    ensures SegViewsOf(segments) == BuiltNetwork(lengths)
    ensures forall k :: 0 <= k < |segments| ==>
              segments[k].start == NetworkStart(k) && segments[k].end == NetworkEnd(k)
              && segments[k].name == NetworkName(k)
  {
    segments := CreateSegments(lengths);
    LinkParents(segments);
  }

  // ---------------------------------------------------------------- pathology and reset

  /** The baseline table of initialize_pathology, (0.1, 0.1, 0.1) for any other id. */
  function BaselineOf(id: nat): Baseline {
    if id == 0 then Baseline(0.05, 0.10, 0.18)
    else if id == 1 then Baseline(0.18, 0.20, 0.25)
    else if id == 2 then Baseline(0.12, 0.18, 0.22)
    else if id == 3 then Baseline(0.85, 0.60, 0.50)
    else if id == 4 then Baseline(0.40, 0.30, 0.42)
    else if id == 5 then Baseline(0.75, 0.55, 0.60)
    else Baseline(0.1, 0.1, 0.1)
  }

  /** A segment counts as affected when its blockage exceeds 0.5 or its
      inflammation exceeds 0.45. */
  predicate IsAffected(b: Baseline) {
    b.blockage > 0.5 || b.inflammation > 0.45
  }

  function WithPathology(v: SegmentView): SegmentView {
    var b := BaselineOf(v.segId);
    v.(blockage := b.blockage, inflammation := b.inflammation, pooling := b.pooling,
       affected := IsAffected(b), initialState := Some(b))
  }

  /** Every baseline lies in [0,1], and of the six segments exactly the two
      distal ones 3 (Upper-R) and 5 (Lower-R) start affected. */
  lemma PathologyFacts(id: nat)
    ensures BaselineInRange(BaselineOf(id))
    ensures id < SegmentCount ==> (IsAffected(BaselineOf(id)) <==> id == 3 || id == 5)
  {
  }

  /** The views after initialize_pathology. */
  function PathologyAll(vs: seq<SegmentView>): (r: seq<SegmentView>)
    ensures |r| == |vs| && forall k :: 0 <= k < |vs| ==> r[k] == WithPathology(vs[k])
  {
    seq(|vs|, k requires 0 <= k < |vs| => WithPathology(vs[k]))
  }

  /** initialize_pathology: each segment takes the baseline of its id, is marked
      affected accordingly and remembers the baseline as its initial state. */
  method InitializePathology(segments: seq<VeinSegment>)
    requires DistinctSegments(segments)
    modifies set s | s in segments
    ensures SegViewsOf(segments) == PathologyAll(old(SegViewsOf(segments)))
  {
    var k := 0;
    while k < |segments|
      invariant k <= |segments|
      invariant forall j :: 0 <= j < k ==> segments[j].View() == WithPathology(old(segments[j].View()))
      invariant forall j :: k <= j < |segments| ==> segments[j].View() == old(segments[j].View())
    {
      ApplyPathology(segments[k]);
      k := k + 1;
    }
  }

  /** The body of initialize_pathology's loop for one segment. */
  method ApplyPathology(seg: VeinSegment)
    modifies seg
    ensures seg.View() == WithPathology(old(seg.View()))
  {
    var b := BaselineOf(seg.segId);
    seg.blockage, seg.inflammation, seg.pooling := b.blockage, b.inflammation, b.pooling;
    seg.affected := seg.blockage > 0.5 || seg.inflammation > 0.45;
    seg.initialState := Some(Baseline(seg.blockage, seg.inflammation, seg.pooling));
  }

  /** reset_segments on one segment (its `initial_state` must exist). */
  function Restored(v: SegmentView): SegmentView
    requires v.initialState.Some?
  {
    var b := v.initialState.value;
    v.(blockage := b.blockage, inflammation := b.inflammation, pooling := b.pooling,
       beacon := 0.0, mapping := 0.0, pressureSpike := 0.0, scaffold := 0.0)
  }

  /** Reset brings a segment back to its state right after initialize_pathology
      apart from the stored readings, keeps every field in range, and resetting
      twice is the same as resetting once. */
  lemma ResetFacts(v: SegmentView)
    requires v.initialState.Some?
    ensures SegmentInRange(v) ==> SegmentInRange(Restored(v))
    ensures Restored(Restored(v)) == Restored(v)
    ensures Restored(WithPathology(v))
         == WithPathology(v).(beacon := 0.0, mapping := 0.0, pressureSpike := 0.0, scaffold := 0.0)
    ensures Restored(v).children == v.children && Restored(v).parent == v.parent
  {
  }

  /** reset_segments: blockage, inflammation and pooling return to the initial
      state and the beacon, mapping, pressure spike and scaffold go back to 0. */
  method ResetSegments(segments: seq<VeinSegment>)
    requires DistinctSegments(segments)
    requires forall k :: 0 <= k < |segments| ==> segments[k].initialState.Some?
    modifies set s | s in segments
    ensures forall k :: 0 <= k < |segments| ==> segments[k].View() == Restored(old(segments[k].View()))
  {
    var k := 0;
    while k < |segments|
      invariant k <= |segments|
      invariant forall j :: 0 <= j < k ==> segments[j].View() == Restored(old(segments[j].View()))
      invariant forall j :: k <= j < |segments| ==> segments[j].View() == old(segments[j].View())
    {
      ResetSegment(segments[k]);
      k := k + 1;
    }
  }

  /** The body of reset_segments' loop for one segment. */
  method ResetSegment(seg: VeinSegment)
    requires seg.initialState.Some?
    modifies seg
    ensures seg.View() == Restored(old(seg.View()))
  {
    var b := seg.initialState.value;
    seg.blockage, seg.inflammation, seg.pooling := b.blockage, b.inflammation, b.pooling;
    seg.beacon, seg.mapping, seg.pressureSpike, seg.scaffold := 0.0, 0.0, 0.0, 0.0;
  }

  // ---------------------------------------------------------------- scoring and the next segment

  /** score_segment_for_role. */
  function Score(v: SegmentView, role: Role): real {
    match role
    case Scout => (1.0 - v.mapping) * 0.7 + v.blockage * 0.2 + v.inflammation * 0.2
    case Worker => v.beacon * 1.3 + v.blockage * 0.8 + v.inflammation * 0.3
    case Support => StrainNormOf(v) * 1.6 + v.pressureSpike * 1.3
    case Monitor => (1.0 - v.mapping) * 1.2 + v.pooling * 0.2
  }

  /** The largest score a role can give a segment whose fields are in range. */
  function ScoreCap(role: Role): real {
    match role
    case Scout => 1.1
    case Worker => 2.4
    case Support => 2.9
    case Monitor => 1.4
  }

  /** Scouts favour unmapped, blocked or inflamed segments; Workers beacons and
      blockage; Supports strain and spikes; Monitors unmapped and pooled ones.
      For a segment in range every score lies in [0, ScoreCap(role)]. */
  lemma ScoreBounds(v: SegmentView, role: Role)
    requires SegmentInRange(v)
    ensures 0.0 <= Score(v, role) <= ScoreCap(role)
  {
  }

  /** A weighted draw that falls back to `rng.choice` when the total weight is
      not positive: the uniform index the fallback draw selects. */
  function UniformIndex(u: real, n: nat): (k: nat)
    requires IsDraw(u) && n > 0
    ensures k < n
  {
    var x := u * n as real;
    assert 0.0 <= x < n as real;
    x.Floor
  }

  /** The index weighted_choice returns for pick draw `u` and fallback draw `fallback`. */
  function WeightedIndex(w: seq<real>, u: real, fallback: real): (k: nat)
    requires |w| > 0 && IsDraw(u) && IsDraw(fallback)
    ensures k < |w|
  {
    if Total(w) <= 0.0 then UniformIndex(fallback, |w|) else FirstReaching(w, u * Total(w))
  }

  /** With non-negative weights and a positive total, the pick is never uniform:
      it lands on an item of positive weight whenever the pick draw is non-zero;
      when the total is not positive the fallback draw alone decides. */
  lemma WeightedIndexFacts(w: seq<real>, u: real, fallback: real)
    requires |w| > 0 && IsDraw(u) && IsDraw(fallback)
    requires forall j :: 0 <= j < |w| ==> w[j] >= 0.0
    ensures Total(w) <= 0.0 ==> WeightedIndex(w, u, fallback) == UniformIndex(fallback, |w|)
    ensures Total(w) > 0.0 && u > 0.0 ==> w[WeightedIndex(w, u, fallback)] > 0.0
    ensures Total(w) > 0.0 ==> forall f :: IsDraw(f) ==> WeightedIndex(w, u, f) == WeightedIndex(w, u, fallback)
  {
    if Total(w) > 0.0 && u > 0.0 {
      assert u * Total(w) <= Total(w);
      PickLandsOnPositiveWeight(w, u * Total(w));
    }
  }

  /** weighted_choice: the item at the weighted index for the given draws. */
  method WeightedChoice(items: seq<nat>, weights: seq<real>, u: real, fallback: real) returns (item: nat)
    requires |items| == |weights| > 0 && IsDraw(u) && IsDraw(fallback)
    ensures item == items[WeightedIndex(weights, u, fallback)]
    ensures item in items
  {
    var total := Total(weights);
    if total <= 0.0 {
      assert WeightedIndex(weights, u, fallback) == UniformIndex(fallback, |items|);
      return items[UniformIndex(fallback, |items|)];
    }
    var pick := u * total;
    ghost var target := pick;
    assert WeightedIndex(weights, u, fallback) == FirstReaching(weights, target);
    var i := 0;
    while i < |items|
      invariant 0 <= i <= |items|
      invariant pick == target - PrefixSum(weights, i)
      invariant forall j :: 0 < j <= i ==> PrefixSum(weights, j) < target
    {
      assert PrefixSum(weights, i + 1) == PrefixSum(weights, i) + weights[i];
      pick := pick - weights[i];
      if pick <= 0.0 {
        FirstReachingIs(weights, target, i);
        return items[i];
      }
      i := i + 1;
    }
    FirstReachingIs(weights, target, |items| - 1);
    return items[|items| - 1];
  }

  predicate ChildrenIn(v: SegmentView, n: nat) {
    forall i :: 0 <= i < |v.children| ==> v.children[i] < n
  }

  /** The weight of each child: its score for the role plus 0.05. */
  function ChildWeights(children: seq<nat>, vs: seq<SegmentView>, role: Role): (w: seq<real>)
    requires forall i :: 0 <= i < |children| ==> children[i] < |vs|
    ensures |w| == |children|
  {
    seq(|children|, i requires 0 <= i < |children| => Score(vs[children[i]], role) + 0.05)
  }

  /** choose_next_segment, as the id of the segment chosen: 0 from a leaf,
      otherwise one of the current segment's children. */
  function NextSegment(v: SegmentView, vs: seq<SegmentView>, role: Role, u: real, fallback: real): (next: nat)
    requires ChildrenIn(v, |vs|) && |vs| > 0 && IsDraw(u) && IsDraw(fallback)
    ensures next < |vs|
    ensures |v.children| == 0 ==> next == 0
    ensures |v.children| > 0 ==> next in v.children
  {
    if |v.children| == 0 then 0
    else v.children[WeightedIndex(ChildWeights(v.children, vs, role), u, fallback)]
  }

  /** When every child is in range all weights are at least 0.05, so the
      uniform fallback of weighted_choice is never taken and the chosen child
      does not depend on the fallback draw. */
  lemma NextSegmentIgnoresFallback(v: SegmentView, vs: seq<SegmentView>, role: Role, u: real, f0: real, f1: real)
    requires ChildrenIn(v, |vs|) && |vs| > 0 && IsDraw(u) && IsDraw(f0) && IsDraw(f1)
    requires forall i :: 0 <= i < |v.children| ==> SegmentInRange(vs[v.children[i]])
    ensures NextSegment(v, vs, role, u, f0) == NextSegment(v, vs, role, u, f1)
  {
    if |v.children| > 0 {
      var w := ChildWeights(v.children, vs, role);
      forall j | 0 <= j < |w|
        ensures w[j] > 0.0
      {
        ScoreBounds(vs[v.children[j]], role);
      }
      PositiveTotal(w);
    }
  }

  /** choose_next_segment: builds the child weights, then draws among them. */
  method ChooseNextSegment(current: SegmentView, vs: seq<SegmentView>, role: Role, u: real, fallback: real)
    returns (next: nat)
    requires ChildrenIn(current, |vs|) && |vs| > 0 && IsDraw(u) && IsDraw(fallback)
    ensures next == NextSegment(current, vs, role, u, fallback)
  {
    if |current.children| == 0 {
      return 0;
    }
    var weights: seq<real> := [];
    var i := 0;
    while i < |current.children|
      invariant i <= |current.children|
      invariant weights == ChildWeights(current.children, vs, role)[..i]
    {
      weights := weights + [Score(vs[current.children[i]], role) + 0.05];
      i := i + 1;
    }
    assert weights == ChildWeights(current.children, vs, role);
    next := WeightedChoice(current.children, weights, u, fallback);
  }
}
