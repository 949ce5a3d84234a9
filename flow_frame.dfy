/** One frame of the flow-redirection simulation loop and the loop itself
    (create_flow_redirection_simulation in run_flow_redirection_swarm_sim.py):
    the flow shares, the reflux pulse and pooling of the faulty branch,
    re-sensing, the agent loop, the temporary plug, valve remodelling and the
    tracer lists. */
module FlowFrame {
  import opened Basics
  import opened Numeric
  import opened FlowNetwork
  import opened FlowSwarm

  // ---------------------------------------------------------------- settings and state

  /** The run parameters the frame body reads. */
  datatype Settings = Settings(swarmSize: nat, flow: real, noise: real, beaconStrength: real, fps: nat)

  predicate AgentOk(a: AgentView) {
    a.segmentId < SegmentCount && InUnit(a.t)
  }

  predicate AgentsOk(vs: seq<AgentView>) {
    forall i :: 0 <= i < |vs| ==> AgentOk(vs[i])
  }

  /** The largest tracer list: `int(8 + 22 * target_flow)` for a target flow of 1. */
  const MaxTracers: nat := 30

  predicate TracerListOk(list: seq<real>) {
    |list| <= MaxTracers && forall i :: 0 <= i < |list| ==> InUnit(list[i])
  }

  /** The tracer dictionary, keyed by segment id in segment order. */
  predicate TracersOk(tracers: seq<seq<real>>) {
    |tracers| == SegmentCount && forall id :: 0 <= id < SegmentCount ==> TracerListOk(tracers[id])
  }

  /** The state the frame loop threads: the segments, the agents, the tracer
      lists and the plug variables. */
  datatype FlowView = FlowView(segs: seq<SegmentView>, agents: seq<AgentView>, tracers: seq<seq<real>>, plug: Plug)

  /** The state invariant: the layout of the built network, every segment
      scalar in range, every agent on a segment with `t` in [0,1], tracer
      positions in [0,1], and the plug invariant. */
  predicate FlowOk(sv: FlowView) {
    Layout(sv.segs) && AllInRange(sv.segs) && AgentsOk(sv.agents) && TracersOk(sv.tracers) && PlugOk(sv.plug)
  }

  /** Only the scalar health of a segment changes during a frame, and its
      mapping never decreases. */
  predicate Evolves(a: seq<SegmentView>, b: seq<SegmentView>) {
    SameLayout(a, b) && forall k :: 0 <= k < |a| ==> a[k].mapping <= b[k].mapping
  }

  /** Two segment lists whose pooling, reflux, valve competence, permeability
      and readings agree: what the agent loop leaves alone. */
  predicate SameHealth(a: seq<SegmentView>, b: seq<SegmentView>) {
    && |a| == |b|
    && forall k :: 0 <= k < |a| ==>
         && a[k].pooling == b[k].pooling && a[k].reflux == b[k].reflux
         && a[k].valveCompetence == b[k].valveCompetence && a[k].permeability == b[k].permeability
         && a[k].sensors == b[k].sensors
  }

  lemma SameHealthTrans(a: seq<SegmentView>, b: seq<SegmentView>, c: seq<SegmentView>)
    requires SameHealth(a, b) && SameHealth(b, c)
    ensures SameHealth(a, c)
  {
  }

  lemma EvolvesTrans(a: seq<SegmentView>, b: seq<SegmentView>, c: seq<SegmentView>)
    requires Evolves(a, b) && Evolves(b, c)
    ensures Evolves(a, c)
  {
  }

  // ---------------------------------------------------------------- flow shares, reflux and pooling

  /** compute_flow_shares is defined on any in-range state. */
  lemma FlowDefinedOk(vs: seq<SegmentView>, plugProgress: real)
    requires Layout(vs) && AllInRange(vs)
    ensures FlowDefined(vs, plugProgress)
    ensures SharesOk(FlowShares(vs, plugProgress))
  {
    FirstFaultyInLayout(vs);
    SharesFacts(Permeability(plugProgress), vs[FaultyId].valveCompetence);
  }

  /** The reflux of the faulty valve before the pulse: grows with its
      incompetence and its permeability. */
  function RefluxBase(v: SegmentView): real {
    Clamp((1.0 - v.valveCompetence) * 0.9 * v.permeability, 0.0, 1.0)
  }

  /** The pulsed reflux for the sine `sine` of `2.4 * time_sec`. */
  function RefluxPulse(v: SegmentView, sine: real): real {
    RefluxBase(v) * (0.6 + 0.4 * sine)
  }

  /** Strong reflux through an open branch reverses its flow. */
  function RefluxDirection(pulse: real, plugProgress: real): (d: int)
    ensures d == 1 || d == -1
    ensures d == -1 <==> pulse > 0.55 && plugProgress < 0.2
  {
    if pulse > 0.55 && plugProgress < 0.2 then -1 else 1
  }

  function PoolingDelta(pulse: real, s: Shares, plugProgress: real, competence: real, fps: nat): real
    requires fps > 0
  {
    (pulse * 0.018 - s.superficial * 0.013 - plugProgress * 0.02) / fps as real - competence * 0.003
  }

  /** The faulty segment after the reflux pulse and the pooling change. */
  function Refluxed(v: SegmentView, s: Shares, plugProgress: real, sine: real, fps: nat): SegmentView
    requires fps > 0
  {
    var pulse := RefluxPulse(v, sine);
    v.(reflux := pulse,
       pooling := Clamp(v.pooling + PoolingDelta(pulse, s, plugProgress, v.valveCompetence, fps), 0.0, 1.0))
  }

  /** For a sine in [-1,1] the pulse lies in [0,1]; the reflux step keeps the
      segment in range and changes nothing but its reflux and pooling. */
  lemma RefluxedFacts(v: SegmentView, s: Shares, plugProgress: real, sine: real, fps: nat)
    requires SegmentInRange(v) && -1.0 <= sine <= 1.0 && fps > 0
    ensures InUnit(RefluxPulse(v, sine))
    ensures var r := Refluxed(v, s, plugProgress, sine, fps);
            SegmentInRange(r) && r == v.(reflux := r.reflux, pooling := r.pooling)
  {
    var base := RefluxBase(v);
    var factor := 0.6 + 0.4 * sine;
    assert 0.2 <= factor <= 1.0;
    assert 0.0 <= base <= 1.0;
    ProductNonNegative(base, factor);
    if base > 0.0 {
      ProductNonNegative(1.0 - factor, base);
      assert base * factor <= base;
    }
  }

  // ---------------------------------------------------------------- re-sensing

  /** The per-segment pass after the pooling change: a faulty segment takes
      the pooling, competence and reflux of `src` (the faulty segment), any
      other has no reflux; the beacon fades by 10% and the readings are
      recomputed. */
  function Resensed(v: SegmentView, src: SegmentView): SegmentView {
    var copied :=
      if v.isFaulty then v.(pooling := src.pooling, valveCompetence := src.valveCompetence, reflux := src.reflux)
      else v.(reflux := 0.0);
    WithSensors(copied.(beacon := copied.beacon * 0.9))
  }

  /** Re-sensing reads only the pooling, competence and reflux of its source. */
  lemma ResensedSource(v: SegmentView, a: SegmentView, b: SegmentView)
    requires a.pooling == b.pooling && a.valveCompetence == b.valveCompetence && a.reflux == b.reflux
    ensures Resensed(v, a) == Resensed(v, b)
  {
  }

  function ResenseAll(vs: seq<SegmentView>, f: nat): (r: seq<SegmentView>)
    requires f < |vs|
    ensures |r| == |vs| && forall k :: 0 <= k < |vs| ==> r[k] == Resensed(vs[k], vs[f])
  {
    seq(|vs|, k requires 0 <= k < |vs| => Resensed(vs[k], vs[f]))
  }

  /** Re-sensing keeps every segment in range with fresh readings, and keeps
      its layout, mapping, permeability and valve competence (the faulty
      segment copies its own values). */
  lemma ResenseAllFacts(vs: seq<SegmentView>, f: nat)
    requires Layout(vs) && AllInRange(vs) && f < |vs| && vs[f].isFaulty
    requires forall k :: 0 <= k < |vs| && vs[k].isFaulty ==> k == f
    ensures var r := ResenseAll(vs, f);
            && Layout(r) && AllInRange(r) && Evolves(vs, r)
            && forall k :: 0 <= k < |vs| ==> r[k].valveCompetence == vs[k].valveCompetence && r[k].sensors.Some?
  {
    var r := ResenseAll(vs, f);
    forall k | 0 <= k < |vs|
      ensures SegmentInRange(r[k])
    {
      var copied :=
        if vs[k].isFaulty then vs[k].(pooling := vs[f].pooling, valveCompetence := vs[f].valveCompetence, reflux := vs[f].reflux)
        else vs[k].(reflux := 0.0);
      SensorsFacts(copied.pooling, copied.reflux);
    }
    assert SameLayout(vs, r);
    SameLayoutKeeps(vs, r);
  }

  // ---------------------------------------------------------------- the agent loop

  /** The random draws one agent consumes in a frame: the speed noise and the
      branch pick. */
  datatype AgentDraw = AgentDraw(noise: real, pick: real)

  predicate DrawOk(d: AgentDraw) {
    IsDraw(d.noise) && IsDraw(d.pick)
  }

  predicate DrawsOk(ds: seq<AgentDraw>, n: nat) {
    |ds| == n && forall k :: 0 <= k < n ==> DrawOk(ds[k])
  }

  /** What the agents read of the frame besides the segments: the run
      parameters, the flow shares and the reflux direction. */
  datatype Conditions = Conditions(st: Settings, shares: Shares, refluxDirection: int)

  /** A Scout on the faulty branch strengthens its beacon when the readings
      are abnormal enough. */
  function SensedBeacon(a: AgentView, v: SegmentView, st: Settings): real {
    if a.role == Scout && v.isFaulty && AbnormalOf(v) > 0.45 then Clamp(v.beacon + st.beaconStrength * 0.04, 0.0, 1.0)
    else v.beacon
  }

  /** A Monitor maps the segment it is on. */
  function SensedMapping(a: AgentView, v: SegmentView): real {
    if a.role == Monitor then Clamp(v.mapping + 0.003, 0.0, 1.0) else v.mapping
  }

  function Sensed(a: AgentView, v: SegmentView, st: Settings): SegmentView {
    v.(beacon := SensedBeacon(a, v, st), mapping := SensedMapping(a, v))
  }

  /** Sensing keeps a segment in range, changes only its beacon and mapping,
      and never lowers its mapping. */
  lemma SensedFacts(a: AgentView, v: SegmentView, st: Settings)
    requires SegmentInRange(v)
    ensures var s := Sensed(a, v, st);
            && SegmentInRange(s) && v.mapping <= s.mapping
            && s == v.(beacon := s.beacon, mapping := s.mapping)
  {
    ClampUnitStep(v.mapping, 0.003);
  }

  /** The speed before noise: the flow scaled by the segment's share (1 on
      the trunk), slowed for a Worker or Repair on the faulty branch and for
      a Monitor anywhere. */
  function BaseSpeed(role: Role, v: SegmentView, c: Conditions): real {
    var base := c.st.flow * (0.7 + 0.8 * ShareOf(c.shares, v.segId, 1.0));
    var worker := if role == Worker && v.isFaulty then base * 0.6 else base;
    var repair := if role == Repair && v.isFaulty then worker * 0.5 else worker;
    if role == Monitor then repair * 0.85 else repair
  }

  /** Agents on the faulty branch are pushed backwards while the reflux is
      reversed. */
  function Direction(v: SegmentView, c: Conditions): int {
    if v.isFaulty && c.refluxDirection < 0 then -1 else 1
  }

  function Speed(role: Role, v: SegmentView, c: Conditions, u: real): (s: real)
    ensures s >= 0.05
  {
    Max(0.05, BaseSpeed(role, v, c) + Uniform(-c.st.noise, c.st.noise, u))
  }

  /** A speed in a direction: negated when the direction points backwards. */
  function Directed(speed: real, direction: int): real {
    if direction < 0 then -speed else speed
  }

  /** For the directions of a frame, 1 and -1, `Directed` is the product
      `speed * direction`. */
  lemma DirectedIsProduct(speed: real, direction: int)
    requires direction == 1 || direction == -1
    ensures Directed(speed, direction) == speed * direction as real
  {
  }

  /** The agent after moving `step` in `direction` along `v`: leaving either
      end of the trunk it enters the branch choose_branch picks, leaving a
      branch it returns to the trunk, entering at the start when moving
      forward and at the end when moving backward. */
  function Moved(a: AgentView, v: SegmentView, vs: seq<SegmentView>, c: Conditions, step: real, direction: int, d: AgentDraw): AgentView
    requires |vs| >= SegmentCount
  {
    var t := a.t + Directed(step, direction);
    if t > 1.0 || t < 0.0 then
      var next := if v.segId == 0 then Branch(c.shares, vs, a.role, d.pick, vs[2].beacon * 0.8) else 0;
      a.(segmentId := next, t := if direction > 0 then 0.0 else 1.0)
    else a.(t := t)
  }

  /** Movement keeps the agent's role and keeps it on a segment with `t` in
      [0,1]; an agent that runs off its segment moves from the trunk to one
      of the branches 1, 2, 3 or from a branch back to the trunk, at `t` 0
      or 1. */
  lemma MovedFacts(a: AgentView, v: SegmentView, vs: seq<SegmentView>, c: Conditions, step: real, direction: int, d: AgentDraw)
    requires |vs| >= SegmentCount && AgentOk(a)
    ensures var m := Moved(a, v, vs, c, step, direction, d);
            var t := a.t + Directed(step, direction);
            && AgentOk(m) && m.role == a.role
            && (0.0 <= t <= 1.0 ==> m == a.(t := t))
            && (t > 1.0 || t < 0.0 ==>
                  && (m.t == 0.0 || m.t == 1.0)
                  && (v.segId == 0 ==> 1 <= m.segmentId <= 3)
                  && (v.segId != 0 ==> m.segmentId == 0))
  {
  }

  /** The state threaded through the agent loop: segments, agents and the
      counts of Workers and Repairs seen on the faulty branch. */
  datatype Walk = Walk(segs: seq<SegmentView>, agents: seq<AgentView>, workers: nat, repairs: nat)

  predicate WalkOk(w: Walk) {
    Layout(w.segs) && AllInRange(w.segs) && AgentsOk(w.agents)
  }

  /** The first half of agent `k`'s turn: it senses its segment, and a Worker
      or Repair on the faulty branch is counted. */
  function SenseStep(w: Walk, k: nat, st: Settings): (r: Walk)
    requires WalkOk(w) && k < |w.agents|
    ensures WalkOk(r) && r.agents == w.agents && Evolves(w.segs, r.segs)
    ensures SameHealth(w.segs, r.segs)
  {
    var a := w.agents[k];
    var id := a.segmentId;
    var v := Sensed(a, w.segs[id], st);
    SensedFacts(a, w.segs[id], st);
    var segs := w.segs[id := v];
    assert SameLayout(w.segs, segs);
    SameLayoutKeeps(w.segs, segs);
    Walk(segs, w.agents,
         if a.role == Worker && v.isFaulty then w.workers + 1 else w.workers,
         if a.role == Repair && v.isFaulty then w.repairs + 1 else w.repairs)
  }

  /** The second half of agent `k`'s turn: it moves along its segment at its
      speed over the segment's length. */
  function MoveStep(w: Walk, k: nat, c: Conditions, d: AgentDraw): (r: Walk)
    requires WalkOk(w) && k < |w.agents|
    ensures WalkOk(r) && r.segs == w.segs && r.workers == w.workers && r.repairs == w.repairs
    ensures Roles(r.agents) == Roles(w.agents)
  {
    var a := w.agents[k];
    var v := w.segs[a.segmentId];
    var step := Speed(a.role, v, c, d.noise) / v.length;
    MovedFacts(a, v, w.segs, c, step, Direction(v, c), d);
    var agents := w.agents[k := Moved(a, v, w.segs, c, step, Direction(v, c), d)];
    assert Roles(agents) == Roles(w.agents);
    w.(agents := agents)
  }

  function AgentStep(w: Walk, k: nat, c: Conditions, d: AgentDraw): (r: Walk)
    requires WalkOk(w) && k < |w.agents|
    ensures WalkOk(r) && |r.agents| == |w.agents| && Evolves(w.segs, r.segs)
    ensures SameHealth(w.segs, r.segs) && Roles(r.agents) == Roles(w.agents)
  {
    MoveStep(SenseStep(w, k, c.st), k, c, d)
  }

  /** The walk after the first `k` agents have taken their turn. */
  function AgentsUpTo(w: Walk, c: Conditions, draws: seq<AgentDraw>, k: nat): (r: Walk)
    requires WalkOk(w) && |draws| == |w.agents| && k <= |w.agents|
    ensures WalkOk(r) && |r.agents| == |w.agents|
  {
    if k == 0 then w
    else AgentStep(AgentsUpTo(w, c, draws, k - 1), k - 1, c, draws[k - 1])
  }

  /** The agent loop keeps the layout, lowers no mapping, changes no
      segment's health (sensing touches only beacons and mappings) and
      changes no role. */
  lemma {:induction false} AgentsUpToFacts(w: Walk, c: Conditions, draws: seq<AgentDraw>, k: nat)
    requires WalkOk(w) && |draws| == |w.agents| && k <= |w.agents|
    ensures var r := AgentsUpTo(w, c, draws, k);
            Evolves(w.segs, r.segs) && SameHealth(w.segs, r.segs) && Roles(r.agents) == Roles(w.agents)
  {
    if k > 0 {
      AgentsUpToFacts(w, c, draws, k - 1);
      var prev := AgentsUpTo(w, c, draws, k - 1);
      var next := AgentStep(prev, k - 1, c, draws[k - 1]).segs;
      EvolvesTrans(w.segs, prev.segs, next);
      SameHealthTrans(w.segs, prev.segs, next);
    } else {
      assert Evolves(w.segs, w.segs) && SameHealth(w.segs, w.segs);
    }
  }

  // ---------------------------------------------------------------- remodelling

  /** In the remodelling phase every Repair on the faulty branch strengthens
      its valve by 0.0008. */
  function Remodeled(vs: seq<SegmentView>, f: nat, phase: Phase, repairs: nat): (r: seq<SegmentView>)
    requires f < |vs|
    ensures |r| == |vs|
  {
    if phase == Remodeling && repairs > 0 then
      vs[f := vs[f].(valveCompetence := Clamp(vs[f].valveCompetence + 0.0008 * repairs as real, 0.0, 1.0))]
    else vs
  }

  /** Remodelling keeps the segments in range and the layout, changes only
      the faulty valve's competence, never lowers it and never lifts it above
      1, and changes it only in the remodelling phase with Repairs present. */
  lemma RemodeledFacts(vs: seq<SegmentView>, f: nat, phase: Phase, repairs: nat)
    requires Layout(vs) && AllInRange(vs) && f < |vs|
    ensures var r := Remodeled(vs, f, phase, repairs);
            && Layout(r) && AllInRange(r) && Evolves(vs, r)
            && vs[f].valveCompetence <= r[f].valveCompetence <= 1.0
            && (phase == Remodeling && repairs > 0 ==>
                  r[f].valveCompetence == Clamp(vs[f].valveCompetence + 0.0008 * repairs as real, 0.0, 1.0))
            && (phase != Remodeling || repairs == 0 ==> r == vs)
            && (forall k :: 0 <= k < |vs| && k != f ==> r[k] == vs[k])
            && forall k :: 0 <= k < |vs| ==> r[k] == vs[k].(valveCompetence := r[k].valveCompetence)
  {
    var r := Remodeled(vs, f, phase, repairs);
    ClampUnitStep(vs[f].valveCompetence, 0.0008 * repairs as real);
    assert SameLayout(vs, r);
    SameLayoutKeeps(vs, r);
  }

  // ---------------------------------------------------------------- tracers

  /** The flow a segment's tracers follow: 1 on the trunk, the branch share
      (0.3 if absent) elsewhere. */
  function TargetFlow(id: nat, s: Shares): real {
    if id != 0 then ShareOf(s, id, 0.3) else 1.0
  }

  /** `int(8 + target_flow * 22)`: from 8 tracers without flow to 30 at full flow. */
  function BaseCount(targetFlow: real): (n: int)
    ensures 0.0 <= targetFlow <= 1.0 ==> 8 <= n <= MaxTracers
  {
    Trunc(8.0 + targetFlow * 22.0)
  }

  /** The product a plug cuts the count by stays between 0 and the count. */
  lemma CutBounds(desired: int, plugProgress: real)
    ensures 0 <= desired && InUnit(plugProgress) ==> 0.0 <= desired as real * (1.0 - plugProgress) <= desired as real
  {
    if 0 < desired && InUnit(plugProgress) {
      ProductNonNegative(1.0 - plugProgress, desired as real);
      ProductNonNegative(plugProgress, desired as real);
    }
  }

  /** `max(4, int(desired_count * (1 - plug_progress)))`: never fewer than 4
      and never more than before. */
  function PlugCut(desired: int, plugProgress: real): (n: int)
    ensures 4 <= desired && InUnit(plugProgress) ==> 4 <= n <= desired
  {
    CutBounds(desired, plugProgress);
    var cut := Trunc(desired as real * (1.0 - plugProgress));
    if 4 >= cut then 4 else cut
  }

  /** `desired_count`: the base count for the target flow, cut in proportion
      to the plug on the faulty branch once the plug is past 0.6; with shares
      in (0,1] and progress in [0,1] it lies between 4 and 30. */
  function DesiredCount(id: nat, s: Shares, plugProgress: real): (n: int)
    ensures SharesOk(s) && InUnit(plugProgress) ==> 4 <= n <= MaxTracers
  {
    var desired := BaseCount(TargetFlow(id, s));
    if id == 2 && plugProgress > 0.6 then PlugCut(desired, plugProgress) else desired
  }

  /** The list resized to `desired` entries: new tracers from the draws at
      the end, or the surplus cut from the end. */
  function Resized(list: seq<real>, desired: nat, draws: seq<real>): (r: seq<real>)
    requires desired <= |list| + |draws|
    ensures |r| == desired
    ensures forall i :: 0 <= i < desired && i < |list| ==> r[i] == list[i]
    ensures forall i :: |list| <= i < desired ==> r[i] == draws[i - |list|]
  {
    if |list| < desired then list + draws[..desired - |list|]
    else if |list| > desired then list[..desired]
    else list
  }

  /** A tracer past the end wraps to the start, one before the start wraps
      to the end. */
  function Wrap(t: real): (r: real)
    ensures InUnit(r)
    ensures t > 1.0 ==> r == 0.0
    ensures t < 0.0 ==> r == 1.0
    ensures InUnit(t) ==> r == t
  {
    if t > 1.0 then 0.0 else if t < 0.0 then 1.0 else t
  }

  /** Every tracer advanced by `delta` and wrapped. */
  function Advanced(list: seq<real>, delta: real): (r: seq<real>)
    ensures |r| == |list| && forall i :: 0 <= i < |list| ==> r[i] == Wrap(list[i] + delta)
  {
    seq(|list|, i requires 0 <= i < |list| => Wrap(list[i] + delta))
  }

  function TracerSpeed(id: nat, s: Shares): real {
    0.004 + TargetFlow(id, s) * 0.006
  }

  /** The faulty branch's tracers follow the reflux direction. */
  function TracerDirection(id: nat, refluxDirection: int): int {
    if id == 2 then refluxDirection else 1
  }

  /** One tracer list after the frame. */
  function TracerStep(id: nat, list: seq<real>, s: Shares, plugProgress: real, refluxDirection: int, draws: seq<real>): seq<real>
    requires SharesOk(s) && InUnit(plugProgress) && |draws| == MaxTracers
  {
    Advanced(Resized(list, DesiredCount(id, s, plugProgress), draws),
             Directed(TracerSpeed(id, s), TracerDirection(id, refluxDirection)))
  }

  /** After the update a list has exactly `desired_count` entries, every one
      in [0,1]; a tracer that survives from the old list or comes from the
      draws is moved by one step and wrapped. */
  lemma TracerStepFacts(id: nat, list: seq<real>, s: Shares, plugProgress: real, refluxDirection: int, draws: seq<real>)
    requires SharesOk(s) && InUnit(plugProgress) && |draws| == MaxTracers
    ensures var r := TracerStep(id, list, s, plugProgress, refluxDirection, draws);
            var delta := Directed(TracerSpeed(id, s), TracerDirection(id, refluxDirection));
            && |r| == DesiredCount(id, s, plugProgress) && TracerListOk(r)
            && (forall i :: 0 <= i < |r| && i < |list| ==> r[i] == Wrap(list[i] + delta))
            && (forall i :: |list| <= i < |r| ==> r[i] == Wrap(draws[i - |list|] + delta))
  {
    var resized := Resized(list, DesiredCount(id, s, plugProgress), draws);
    var delta := Directed(TracerSpeed(id, s), TracerDirection(id, refluxDirection));
    assert TracerStep(id, list, s, plugProgress, refluxDirection, draws) == Advanced(resized, delta);
  }

  function TracersAll(tracers: seq<seq<real>>, s: Shares, plugProgress: real, refluxDirection: int, draws: seq<seq<real>>): (r: seq<seq<real>>)
    requires SharesOk(s) && InUnit(plugProgress) && |draws| == |tracers|
    requires forall id :: 0 <= id < |draws| ==> |draws[id]| == MaxTracers
    ensures |r| == |tracers|
  {
    seq(|tracers|, id requires 0 <= id < |tracers| =>
      TracerStep(id, tracers[id], s, plugProgress, refluxDirection, draws[id]))
  }

  lemma TracersAllOk(tracers: seq<seq<real>>, s: Shares, plugProgress: real, refluxDirection: int, draws: seq<seq<real>>)
    requires SharesOk(s) && InUnit(plugProgress) && |draws| == |tracers| == SegmentCount
    requires forall id :: 0 <= id < |draws| ==> |draws[id]| == MaxTracers
    ensures TracersOk(TracersAll(tracers, s, plugProgress, refluxDirection, draws))
  {
    var r := TracersAll(tracers, s, plugProgress, refluxDirection, draws);
    forall id | 0 <= id < SegmentCount
      ensures TracerListOk(r[id])
    {
      TracerStepFacts(id, tracers[id], s, plugProgress, refluxDirection, draws[id]);
    }
  }

  // ---------------------------------------------------------------- one frame

  /** compute_flow_shares keeps the layout and the ranges and changes only
      the faulty segment's permeability. */
  lemma OpenedFacts(vs: seq<SegmentView>, plugProgress: real)
    requires Layout(vs) && AllInRange(vs)
    ensures HasFaulty(vs) && FirstFaulty(vs) == FaultyId
    ensures var r := WithPermeability(vs, plugProgress);
            && Layout(r) && AllInRange(r) && Evolves(vs, r)
            && r == vs[FaultyId := vs[FaultyId].(permeability := Permeability(plugProgress))]
  {
    FirstFaultyInLayout(vs);
    var r := WithPermeability(vs, plugProgress);
    assert SameLayout(vs, r);
    SameLayoutKeeps(vs, r);
  }

  /** The random input of one frame: `sin(2.4 * time_sec)`, each agent's
      draws and 30 `rng.random()` draws per tracer list. */
  datatype FrameDraws = FrameDraws(sine: real, draws: seq<AgentDraw>, tracerDraws: seq<seq<real>>)

  predicate FrameDrawsOk(fd: FrameDraws, n: nat) {
    && -1.0 <= fd.sine <= 1.0 && DrawsOk(fd.draws, n) && |fd.tracerDraws| == SegmentCount
    && forall id :: 0 <= id < SegmentCount ==> |fd.tracerDraws[id]| == MaxTracers
  }

  /** The segments once compute_flow_shares has run and the faulty branch
      has taken its reflux pulse and pooling change. */
  function Pulsed(sv: FlowView, st: Settings, sine: real): (r: seq<SegmentView>)
    requires FlowOk(sv) && st.fps > 0
    ensures |r| == SegmentCount
  {
    FlowDefinedOk(sv.segs, sv.plug.progress);
    OpenedFacts(sv.segs, sv.plug.progress);
    var pp := sv.plug.progress;
    var vs := WithPermeability(sv.segs, pp);
    vs[FaultyId := Refluxed(vs[FaultyId], FrameShares(sv), pp, sine, st.fps)]
  }

  /** The reflux direction of the frame. */
  function FrameDirection(sv: FlowView, st: Settings, sine: real): (d: int)
    requires FlowOk(sv) && st.fps > 0
    ensures d == 1 || d == -1
  {
    RefluxDirection(Pulsed(sv, st, sine)[FaultyId].reflux, sv.plug.progress)
  }

  /** The shares compute_flow_shares returns at the top of the frame. */
  function FrameShares(sv: FlowView): (s: Shares)
    requires FlowOk(sv)
    ensures SharesOk(s)
  {
    FlowDefinedOk(sv.segs, sv.plug.progress);
    FlowShares(sv.segs, sv.plug.progress)
  }

  function FrameConditions(sv: FlowView, st: Settings, sine: real): (c: Conditions)
    requires FlowOk(sv) && st.fps > 0
    ensures c.st == st && c.shares == FrameShares(sv)
  {
    Conditions(st, FrameShares(sv), FrameDirection(sv, st, sine))
  }

  /** The walk the agent loop starts from: the re-sensed segments, the agents
      and no Workers or Repairs counted yet. */
  function StartWalk(sv: FlowView, st: Settings, sine: real): (w: Walk)
    requires FlowOk(sv) && st.fps > 0
    ensures |w.agents| == |sv.agents|
  {
    Walk(ResenseAll(Pulsed(sv, st, sine), FaultyId), sv.agents, 0, 0)
  }

  /** Before the agents move the segments are in range with fresh readings;
      only the faulty segment changed its pooling, permeability and reflux,
      every other segment has no reflux, and no valve competence and no
      mapping changed. */
  lemma StartWalkOk(sv: FlowView, st: Settings, sine: real)
    requires FlowOk(sv) && st.fps > 0 && -1.0 <= sine <= 1.0
    ensures var w := StartWalk(sv, st, sine);
            && WalkOk(w) && Evolves(sv.segs, w.segs)
            && (forall k :: 0 <= k < SegmentCount ==> w.segs[k].valveCompetence == sv.segs[k].valveCompetence)
            && (forall k :: 0 <= k < SegmentCount && k != FaultyId ==> w.segs[k].reflux == 0.0)
            && (forall k :: 0 <= k < SegmentCount ==> w.segs[k].sensors == Some(SensorsFor(w.segs[k].pooling, w.segs[k].reflux)))
  {
    var pp := sv.plug.progress;
    FlowDefinedOk(sv.segs, pp);
    OpenedFacts(sv.segs, pp);
    var vs := WithPermeability(sv.segs, pp);
    RefluxedFacts(vs[FaultyId], FrameShares(sv), pp, sine, st.fps);
    var p := Pulsed(sv, st, sine);
    assert SameLayout(vs, p) && AllInRange(p);
    SameLayoutKeeps(vs, p);
    assert Evolves(vs, p);
    EvolvesTrans(sv.segs, vs, p);
    ResenseAllFacts(p, FaultyId);
    EvolvesTrans(sv.segs, p, ResenseAll(p, FaultyId));
  }

  /** The walk once every agent has taken its turn. */
  function TickWalk(sv: FlowView, st: Settings, fd: FrameDraws): (w: Walk)
    requires FlowOk(sv) && st.fps > 0 && FrameDrawsOk(fd, |sv.agents|)
    ensures WalkOk(w) && |w.agents| == |sv.agents|
  {
    StartWalkOk(sv, st, fd.sine);
    var w0 := StartWalk(sv, st, fd.sine);
    AgentsUpTo(w0, FrameConditions(sv, st, fd.sine), fd.draws, |w0.agents|)
  }

  /** The plug after the frame's update, with the Workers counted on the
      faulty branch. */
  function TickPlug(sv: FlowView, st: Settings, frameIdx: nat, fd: FrameDraws): (p: Plug)
    requires FlowOk(sv) && st.fps > 0 && FrameDrawsOk(fd, |sv.agents|)
    ensures PlugOk(p)
  {
    PlugUpdateKeeps(sv.plug, PhaseAt(frameIdx, st.fps), TickWalk(sv, st, fd).workers, WorkerThreshold(st.swarmSize), st.fps);
    PlugUpdate(sv.plug, PhaseAt(frameIdx, st.fps), TickWalk(sv, st, fd).workers, WorkerThreshold(st.swarmSize), st.fps)
  }

  /** One pass of the frame loop, without the rendering. */
  function Tick(sv: FlowView, st: Settings, frameIdx: nat, fd: FrameDraws): (r: FlowView)
    requires FlowOk(sv) && st.fps > 0 && FrameDrawsOk(fd, |sv.agents|)
    ensures |r.segs| == |r.tracers| == SegmentCount
  {
    var c := FrameConditions(sv, st, fd.sine);
    var w := TickWalk(sv, st, fd);
    var plug := TickPlug(sv, st, frameIdx, fd);
    FlowView(Remodeled(w.segs, FaultyId, PhaseAt(frameIdx, st.fps), w.repairs), w.agents,
             TracersAll(sv.tracers, c.shares, plug.progress, c.refluxDirection, fd.tracerDraws), plug)
  }

  /** After the agent loop the segments keep the layout, the health and
      fresh readings the re-sensing left, no mapping has fallen and no role
      has changed. */
  lemma TickWalkFacts(sv: FlowView, st: Settings, fd: FrameDraws)
    requires FlowOk(sv) && st.fps > 0 && FrameDrawsOk(fd, |sv.agents|)
    ensures var w := TickWalk(sv, st, fd);
            && Evolves(sv.segs, w.segs) && Roles(w.agents) == Roles(sv.agents)
            && (forall k :: 0 <= k < SegmentCount ==> w.segs[k].valveCompetence == sv.segs[k].valveCompetence)
            && (forall k :: 0 <= k < SegmentCount && k != FaultyId ==> w.segs[k].reflux == 0.0)
            && (forall k :: 0 <= k < SegmentCount ==> w.segs[k].sensors == Some(SensorsFor(w.segs[k].pooling, w.segs[k].reflux)))
  {
    var c := FrameConditions(sv, st, fd.sine);
    var w0 := StartWalk(sv, st, fd.sine);
    StartWalkOk(sv, st, fd.sine);
    AgentsUpToFacts(w0, c, fd.draws, |w0.agents|);
    var w := AgentsUpTo(w0, c, fd.draws, |w0.agents|);
    assert w == TickWalk(sv, st, fd);
    EvolvesTrans(sv.segs, w0.segs, w.segs);
  }

  /** A frame keeps the state invariant, the swarm's size and roles, and
      lowers no mapping. */
  lemma TickKeeps(sv: FlowView, st: Settings, frameIdx: nat, fd: FrameDraws)
    requires FlowOk(sv) && st.fps > 0 && FrameDrawsOk(fd, |sv.agents|)
    ensures var r := Tick(sv, st, frameIdx, fd);
            && FlowOk(r) && |r.agents| == |sv.agents| && Roles(r.agents) == Roles(sv.agents)
            && Evolves(sv.segs, r.segs)
  {
    var c := FrameConditions(sv, st, fd.sine);
    var w := TickWalk(sv, st, fd);
    TickWalkFacts(sv, st, fd);
    var phase := PhaseAt(frameIdx, st.fps);
    var segs := Remodeled(w.segs, FaultyId, phase, w.repairs);
    RemodeledFacts(w.segs, FaultyId, phase, w.repairs);
    EvolvesTrans(sv.segs, w.segs, segs);
    var plug := TickPlug(sv, st, frameIdx, fd);
    TracersAllOk(sv.tracers, c.shares, plug.progress, c.refluxDirection, fd.tracerDraws);
    var tracers := TracersAll(sv.tracers, c.shares, plug.progress, c.refluxDirection, fd.tracerDraws);
    assert Tick(sv, st, frameIdx, fd) == FlowView(segs, w.agents, tracers, plug);
  }

  /** After a frame every reading matches its segment and only the faulty
      branch has reflux. */
  lemma TickReadings(sv: FlowView, st: Settings, frameIdx: nat, fd: FrameDraws)
    requires FlowOk(sv) && st.fps > 0 && FrameDrawsOk(fd, |sv.agents|)
    ensures var r := Tick(sv, st, frameIdx, fd);
            && (forall k :: 0 <= k < SegmentCount ==> r.segs[k].sensors == Some(SensorsFor(r.segs[k].pooling, r.segs[k].reflux)))
            && (forall k :: 0 <= k < SegmentCount && k != FaultyId ==> r.segs[k].reflux == 0.0)
  {
    var w := TickWalk(sv, st, fd);
    TickWalkFacts(sv, st, fd);
    var phase := PhaseAt(frameIdx, st.fps);
    var segs := Remodeled(w.segs, FaultyId, phase, w.repairs);
    RemodeledFacts(w.segs, FaultyId, phase, w.repairs);
    assert Tick(sv, st, frameIdx, fd).segs == segs;
  }

  /** Over a frame the faulty valve never weakens, never passes 1 and
      strengthens only while remodelling. */
  lemma TickValve(sv: FlowView, st: Settings, frameIdx: nat, fd: FrameDraws)
    requires FlowOk(sv) && st.fps > 0 && FrameDrawsOk(fd, |sv.agents|)
    ensures var r := Tick(sv, st, frameIdx, fd);
            && sv.segs[FaultyId].valveCompetence <= r.segs[FaultyId].valveCompetence <= 1.0
            && (PhaseAt(frameIdx, st.fps) != Remodeling ==> r.segs[FaultyId].valveCompetence == sv.segs[FaultyId].valveCompetence)
  {
    var w := TickWalk(sv, st, fd);
    TickWalkFacts(sv, st, fd);
    var phase := PhaseAt(frameIdx, st.fps);
    var segs := Remodeled(w.segs, FaultyId, phase, w.repairs);
    RemodeledFacts(w.segs, FaultyId, phase, w.repairs);
    assert Tick(sv, st, frameIdx, fd).segs == segs;
  }

  /** After a frame every tracer list has `desired_count` entries for the
      frame's shares and the updated plug. */
  lemma TickTracers(sv: FlowView, st: Settings, frameIdx: nat, fd: FrameDraws)
    requires FlowOk(sv) && st.fps > 0 && FrameDrawsOk(fd, |sv.agents|)
    ensures var r := Tick(sv, st, frameIdx, fd);
            forall id :: 0 <= id < SegmentCount ==>
              |r.tracers[id]| == DesiredCount(id, FrameShares(sv), r.plug.progress)
  {
    var c := FrameConditions(sv, st, fd.sine);
    var plug := TickPlug(sv, st, frameIdx, fd);
    var tracers := TracersAll(sv.tracers, c.shares, plug.progress, c.refluxDirection, fd.tracerDraws);
    assert Tick(sv, st, frameIdx, fd).tracers == tracers && Tick(sv, st, frameIdx, fd).plug == plug;
    forall id | 0 <= id < SegmentCount
      ensures |tracers[id]| == DesiredCount(id, c.shares, plug.progress)
    {
      TracerStepFacts(id, sv.tracers[id], c.shares, plug.progress, c.refluxDirection, fd.tracerDraws[id]);
    }
  }

  // ---------------------------------------------------------------- the frame loop

  /** `tracers = {seg.seg_id: [] for seg in segments}`. */
  const NoTracers: seq<seq<real>> := [[], [], [], []]

  /** The state after set-up: the built network with its pathology, a fresh
      swarm, no tracers and an inactive plug. */
  function InitialState(lengths: seq<real>, roles: seq<Role>, tDraws: seq<real>): FlowView
    requires |lengths| == SegmentCount && |tDraws| == |roles|
  {
    FlowView(PathologyAll(BuiltNetwork(lengths)), Recruits(roles, tDraws), NoTracers, InitialPlug)
  }

  /** The set-up establishes the state invariant with `swarm_size` agents in
      the quota proportions, behind a faulty valve of competence 0.2. */
  lemma InitialStateOk(n: nat, lengths: seq<real>, roles: seq<Role>, tDraws: seq<real>)
    requires NetworkLengths(lengths) && Shuffled(roles, n) && DrawsFor(tDraws, n)
    ensures var sv := InitialState(lengths, roles, tDraws);
            && FlowOk(sv) && |sv.agents| == n && sv.segs[FaultyId].valveCompetence == 0.2
            && TallyOf(Roles(sv.agents)) == RoleTally(Quota(n, 25), Quota(n, 40), Quota(n, 20), MonitorQuota(n))
  {
    PathologyInRange(lengths);
    RecruitsFacts(n, roles, tDraws);
  }

  predicate AllFramesOk(fds: seq<FrameDraws>, n: nat) {
    forall f :: 0 <= f < |fds| ==> FrameDrawsOk(fds[f], n)
  }

  /** One tick, with what the frame keeps. */
  function Frame(sv: FlowView, st: Settings, frameIdx: nat, fd: FrameDraws): (r: FlowView)
    requires FlowOk(sv) && st.fps > 0 && FrameDrawsOk(fd, |sv.agents|)
    ensures FlowOk(r) && |r.agents| == |sv.agents| && Roles(r.agents) == Roles(sv.agents)
    ensures Evolves(sv.segs, r.segs)
    ensures sv.segs[FaultyId].valveCompetence <= r.segs[FaultyId].valveCompetence
    ensures frameIdx < 12 * st.fps ==> r.segs[FaultyId].valveCompetence == sv.segs[FaultyId].valveCompetence
  {
    TickKeeps(sv, st, frameIdx, fd);
    TickValve(sv, st, frameIdx, fd);
    BeforeRemodeling(frameIdx, st.fps);
    Tick(sv, st, frameIdx, fd)
  }

  /** The state the frame loop reaches from `sv` at frame `k` once it has
      run frames `k .. |fds| - 1`, frame `f` drawing `fds[f]`. Every state on
      the way satisfies the invariant with the same swarm; mappings never
      fall, the faulty valve never weakens, and a run that ends by frame
      `12 * fps`, when remodelling starts, keeps its competence. */
  function Run(sv: FlowView, st: Settings, fds: seq<FrameDraws>, k: nat): (r: FlowView)
    requires FlowOk(sv) && (st.fps > 0 || k == |fds|) && AllFramesOk(fds, |sv.agents|) && k <= |fds|
    ensures FlowOk(r) && |r.agents| == |sv.agents| && Roles(r.agents) == Roles(sv.agents)
    ensures Evolves(sv.segs, r.segs)
    ensures sv.segs[FaultyId].valveCompetence <= r.segs[FaultyId].valveCompetence
    ensures |fds| <= 12 * st.fps ==> r.segs[FaultyId].valveCompetence == sv.segs[FaultyId].valveCompetence
    decreases |fds| - k
  {
    if k == |fds| then
      assert Evolves(sv.segs, sv.segs);
      sv
    else
      var next := Frame(sv, st, k, fds[k]);
      var r := Run(next, st, fds, k + 1);
      EvolvesTrans(sv.segs, next.segs, r.segs);
      r
  }

  /** `T[j]` is the state before frame `j` of a run with the draws `fds` and
      `m` agents, for every `j` of the run: each satisfies the invariant and
      each after the first is the frame of the one before it. */
  ghost predicate Chained(T: seq<FlowView>, st: Settings, fds: seq<FrameDraws>, m: nat) {
    && |T| == |fds| + 1
    && (|fds| == 0 || st.fps > 0)
    && AllFramesOk(fds, m)
    && (forall j :: 0 <= j < |T| ==> FlowOk(T[j]) && |T[j].agents| == m)
    && forall j {:trigger fds[j]} :: 0 <= j < |fds| ==> T[j + 1] == Frame(T[j], st, j, fds[j])
  }

  /** The states the frame loop passes through from `sv` at frame `k` to the
      end of the run, at their frame numbers: `T[k]` is `sv`, each later state
      is the frame of the one before it and the last is where `Run` ends. */
  lemma {:induction false} RunStates(sv: FlowView, st: Settings, fds: seq<FrameDraws>, k: nat) returns (T: seq<FlowView>)
    requires FlowOk(sv) && (st.fps > 0 || k == |fds|) && AllFramesOk(fds, |sv.agents|) && k <= |fds|
    ensures |T| == |fds| + 1 && T[k] == sv && T[|fds|] == Run(sv, st, fds, k)
    ensures forall j :: k <= j <= |fds| ==> FlowOk(T[j]) && |T[j].agents| == |sv.agents|
    ensures forall j {:trigger fds[j]} :: k <= j < |fds| ==> T[j + 1] == Frame(T[j], st, j, fds[j])
    decreases |fds| - k
  {
    if k == |fds| {
      T := seq(|fds| + 1, _ => sv);
      assert T[|fds|] == sv;
    } else {
      var next := Frame(sv, st, k, fds[k]);
      var R := RunStates(next, st, fds, k + 1);
      T := R[k := sv];
      assert T[k + 1] == next && T[|fds|] == R[|fds|];
      forall j | k <= j <= |fds|
        ensures FlowOk(T[j]) && |T[j].agents| == |sv.agents|
      {
        if j > k {
          assert T[j] == R[j];
        }
      }
      forall j | k <= j < |fds|
        ensures T[j + 1] == Frame(T[j], st, j, fds[j])
      {
        if j > k {
          assert R[j + 1] == Frame(R[j], st, j, fds[j]);
          assert T[j] == R[j] && T[j + 1] == R[j + 1];
        }
      }
    }
  }

  /** The chain of a whole run from `init`. */
  lemma RunChain(init: FlowView, st: Settings, fds: seq<FrameDraws>) returns (T: seq<FlowView>)
    requires FlowOk(init) && (st.fps > 0 || |fds| == 0) && AllFramesOk(fds, |init.agents|)
    ensures Chained(T, st, fds, |init.agents|) && T[0] == init
    ensures T[|fds|] == Run(init, st, fds, 0)
  {
    T := RunStates(init, st, fds, 0);
    forall j | 0 <= j < |T|
      ensures FlowOk(T[j]) && |T[j].agents| == |init.agents|
    {
      assert 0 <= j <= |fds|;
    }
    forall j | 0 <= j < |fds|
      ensures T[j + 1] == Frame(T[j], st, j, fds[j])
    {
      assert 0 <= j < |fds|;
    }
  }

  /** The frames before `12 * fps` are not in the remodelling phase. */
  lemma BeforeRemodeling(frameIdx: nat, fps: nat)
    requires fps > 0
    ensures frameIdx < 12 * fps ==> PhaseAt(frameIdx, fps) != Remodeling
  {
    PhaseFrames(frameIdx, fps);
  }

  /** `num_frames = int(duration_sec * fps)`. */
  function FrameCount(durationSec: nat, fps: nat): (n: nat)
    ensures fps == 0 ==> n == 0
  {
    durationSec * fps
  }

  /** The final compute_flow_shares: it sets the faulty segment's
      permeability from the plug progress and changes nothing else. */
  function FinalState(sv: FlowView): (r: FlowView)
    requires FlowOk(sv)
    ensures FlowOk(r) && r.agents == sv.agents && r.tracers == sv.tracers && r.plug == sv.plug
    ensures r.segs == sv.segs[FaultyId := sv.segs[FaultyId].(permeability := Permeability(sv.plug.progress))]
    ensures Evolves(sv.segs, r.segs)
  {
    OpenedFacts(sv.segs, sv.plug.progress);
    sv.(segs := WithPermeability(sv.segs, sv.plug.progress))
  }

  /** The frame loop from `init` followed by the final compute_flow_shares:
      the swarm keeps its size and roles and the faulty valve does not weaken. */
  function RunToEnd(init: FlowView, st: Settings, fds: seq<FrameDraws>): (r: FlowView)
    requires FlowOk(init) && (st.fps > 0 || |fds| == 0) && AllFramesOk(fds, |init.agents|)
    ensures FlowOk(r) && |r.agents| == |init.agents| && Roles(r.agents) == Roles(init.agents)
    ensures init.segs[FaultyId].valveCompetence <= r.segs[FaultyId].valveCompetence
    ensures |fds| <= 12 * st.fps ==> r.segs[FaultyId].valveCompetence == init.segs[FaultyId].valveCompetence
  {
    FinalState(Run(init, st, fds, 0))
  }

  /** The shares the final compute_flow_shares returns after the frame loop
      from `init`. */
  function EndShares(init: FlowView, st: Settings, fds: seq<FrameDraws>): (s: Shares)
    requires FlowOk(init) && (st.fps > 0 || |fds| == 0) && AllFramesOk(fds, |init.agents|)
    ensures SharesOk(s)
  {
    FrameShares(Run(init, st, fds, 0))
  }

  /** Set-up, the frame loop and the final compute_flow_shares. */
  function Simulation(st: Settings, durationSec: nat, lengths: seq<real>, roles: seq<Role>, tDraws: seq<real>,
                      fds: seq<FrameDraws>): (r: FlowView)
    requires NetworkLengths(lengths) && Shuffled(roles, st.swarmSize) && DrawsFor(tDraws, st.swarmSize)
    requires |fds| == FrameCount(durationSec, st.fps) && AllFramesOk(fds, st.swarmSize)
    ensures FlowOk(r) && |r.agents| == st.swarmSize
  {
    InitialStateOk(st.swarmSize, lengths, roles, tDraws);
    RunToEnd(InitialState(lengths, roles, tDraws), st, fds)
  }

  /** `final_flow_shares`: compute_flow_shares on the state the frame loop
      leaves. */
  function FinalShares(st: Settings, durationSec: nat, lengths: seq<real>, roles: seq<Role>, tDraws: seq<real>,
                       fds: seq<FrameDraws>): (s: Shares)
    requires NetworkLengths(lengths) && Shuffled(roles, st.swarmSize) && DrawsFor(tDraws, st.swarmSize)
    requires |fds| == FrameCount(durationSec, st.fps) && AllFramesOk(fds, st.swarmSize)
    ensures SharesOk(s)
  {
    InitialStateOk(st.swarmSize, lengths, roles, tDraws);
    EndShares(InitialState(lengths, roles, tDraws), st, fds)
  }

  /** The swarm ends the run with the size and the role proportions it was
      created with, and the faulty valve ends at least as competent as the
      pathology left it. */
  lemma SimulationFacts(st: Settings, durationSec: nat, lengths: seq<real>, roles: seq<Role>, tDraws: seq<real>,
                        fds: seq<FrameDraws>)
    requires NetworkLengths(lengths) && Shuffled(roles, st.swarmSize) && DrawsFor(tDraws, st.swarmSize)
    requires |fds| == FrameCount(durationSec, st.fps) && AllFramesOk(fds, st.swarmSize)
    ensures var r := Simulation(st, durationSec, lengths, roles, tDraws, fds);
            var n := st.swarmSize;
            && TallyOf(Roles(r.agents)) == RoleTally(Quota(n, 25), Quota(n, 40), Quota(n, 20), MonitorQuota(n))
            && 0.2 <= r.segs[FaultyId].valveCompetence <= 1.0
  {
    InitialStateOk(st.swarmSize, lengths, roles, tDraws);
  }

  // ---------------------------------------------------------------- per-object steps

  /** The reflux pulse and the pooling change on the faulty segment; returns
      the frame's reflux direction. */
  method PulseFaulty(faulty: VeinSegment, s: Shares, plugProgress: real, sine: real, fps: nat, ghost agents: seq<SwarmAgent>)
    returns (refluxDirection: int)
    requires fps > 0
    modifies faulty
    ensures faulty.View() == Refluxed(old(faulty.View()), s, plugProgress, sine, fps)
    ensures refluxDirection == RefluxDirection(faulty.reflux, plugProgress)
    ensures AgentViewsOf(agents) == old(AgentViewsOf(agents))
  {
    ghost var v := faulty.View();
    var refluxBase := Clamp((1.0 - faulty.valveCompetence) * 0.9 * faulty.permeability, 0.0, 1.0);
    var refluxPulse := refluxBase * (0.6 + 0.4 * sine);
    assert refluxPulse == RefluxPulse(v, sine);
    faulty.reflux := refluxPulse;
    refluxDirection := if refluxPulse > 0.55 && plugProgress < 0.2 then -1 else 1;
    var poolingDelta := (refluxPulse * 0.018 - s.superficial * 0.013 - plugProgress * 0.02) / fps as real;
    poolingDelta := poolingDelta - faulty.valveCompetence * 0.003;
    assert poolingDelta == PoolingDelta(refluxPulse, s, plugProgress, v.valveCompetence, fps);
    faulty.pooling := Clamp(faulty.pooling + poolingDelta, 0.0, 1.0);
  }

  /** One pass of the re-sensing loop: `seg` against the faulty segment. */
  method ResenseSegment(seg: VeinSegment, faulty: VeinSegment)
    modifies seg
    ensures seg.View() == Resensed(old(seg.View()), old(faulty.View()))
  {
    if seg.isFaulty {
      seg.pooling := faulty.pooling;
      seg.valveCompetence := faulty.valveCompetence;
      seg.reflux := faulty.reflux;
    } else {
      seg.reflux := 0.0;
    }
    seg.beacon := seg.beacon * 0.9;
    ComputeSensors(seg);
  }

  /** What agent `a` does to the segment it is on. */
  method SenseSegment(seg: VeinSegment, a: AgentView, st: Settings, ghost agents: seq<SwarmAgent>)
    modifies seg
    ensures seg.View() == Sensed(a, old(seg.View()), st)
    ensures AgentViewsOf(agents) == old(AgentViewsOf(agents))
  {
    var abnormal := if seg.sensors.Some? then seg.sensors.value.abnormal else 0.0;
    if a.role == Scout && seg.isFaulty && abnormal > 0.45 {
      seg.beacon := Clamp(seg.beacon + st.beaconStrength * 0.04, 0.0, 1.0);
    }
    if a.role == Monitor {
      seg.mapping := Clamp(seg.mapping + 0.003, 0.0, 1.0);
    }
  }

  /** The movement of one agent by `step` in `direction` along `v`. */
  method MoveAgent(agent: SwarmAgent, v: SegmentView, segments: seq<VeinSegment>, c: Conditions, step: real,
                   direction: int, d: AgentDraw)
    requires |segments| >= SegmentCount && (direction == 1 || direction == -1)
    modifies agent
    ensures agent.View() == Moved(old(agent.View()), v, SegViewsOf(segments), c, step, direction, d)
    ensures SegViewsOf(segments) == old(SegViewsOf(segments))
  {
    DirectedIsProduct(step, direction);
    agent.t := agent.t + step * direction as real;
    if agent.t > 1.0 || agent.t < 0.0 {
      if v.segId == 0 {
        var beaconBias := segments[2].beacon * 0.8;
        var nextId := ChooseBranch(c.shares, segments, agent.role, d.pick, beaconBias);
        agent.segmentId := nextId;
      } else {
        agent.segmentId := 0;
      }
      agent.t := if direction > 0 then 0.0 else 1.0;
    }
  }

  /** The extend-or-delete step of the tracer update. */
  method ResizeTracers(list: seq<real>, desired: nat, draws: seq<real>) returns (r: seq<real>)
    requires desired <= |list| + |draws|
    ensures r == Resized(list, desired, draws)
  {
    r := list;
    var current := |r|;
    if current < desired {
      var j := 0;
      while j < desired - current
        invariant j <= desired - current && r == list + draws[..j]
      {
        r := r + [draws[j]];
        j := j + 1;
      }
    } else if current > desired {
      r := r[..desired];
    }
  }

  /** Every tracer moved by `delta` and wrapped, in place. */
  method AdvanceTracers(list: seq<real>, delta: real) returns (r: seq<real>)
    ensures r == Advanced(list, delta)
  {
    r := list;
    var idx := 0;
    while idx < |r|
      invariant idx <= |r| == |list|
      invariant forall i :: 0 <= i < idx ==> r[i] == Wrap(list[i] + delta)
      invariant forall i :: idx <= i < |r| ==> r[i] == list[i]
    {
      var t := r[idx] + delta;
      if t > 1.0 {
        t := 0.0;
      } else if t < 0.0 {
        t := 1.0;
      }
      r := r[idx := t];
      idx := idx + 1;
    }
  }

  /** One tracer list after the frame: resized to `desired_count`, then
      advanced and wrapped. */
  method UpdateTracerList(id: nat, list: seq<real>, s: Shares, plugProgress: real, refluxDirection: int, draws: seq<real>)
    returns (r: seq<real>)
    requires SharesOk(s) && InUnit(plugProgress) && |draws| == MaxTracers
    requires refluxDirection == 1 || refluxDirection == -1
    ensures r == TracerStep(id, list, s, plugProgress, refluxDirection, draws)
  {
    var targetFlow := if id != 0 then ShareOf(s, id, 0.3) else 1.0;
    var desired := BaseCount(targetFlow);
    if id == 2 && plugProgress > 0.6 {
      desired := PlugCut(desired, plugProgress);
    }
    assert desired == DesiredCount(id, s, plugProgress);
    r := ResizeTracers(list, desired, draws);
    var speed := 0.004 + targetFlow * 0.006;
    var direction := if id == 2 then refluxDirection else 1;
    DirectedIsProduct(speed, direction);
    r := AdvanceTracers(r, speed * direction as real);
  }

  /** The tracer loop over every list, in segment order. */
  method UpdateTracers(tracers: seq<seq<real>>, s: Shares, plugProgress: real, refluxDirection: int, draws: seq<seq<real>>)
    returns (r: seq<seq<real>>)
    requires SharesOk(s) && InUnit(plugProgress) && |draws| == |tracers|
    requires forall id :: 0 <= id < |draws| ==> |draws[id]| == MaxTracers
    requires refluxDirection == 1 || refluxDirection == -1
    ensures r == TracersAll(tracers, s, plugProgress, refluxDirection, draws)
  {
    r := tracers;
    var id := 0;
    while id < |r|
      invariant id <= |r| == |tracers|
      invariant forall j :: 0 <= j < id ==> r[j] == TracerStep(j, tracers[j], s, plugProgress, refluxDirection, draws[j])
      invariant forall j :: id <= j < |r| ==> r[j] == tracers[j]
    {
      var list := UpdateTracerList(id, r[id], s, plugProgress, refluxDirection, draws[id]);
      r := r[id := list];
      id := id + 1;
    }
  }

  // ---------------------------------------------------------------- the phases of a frame

  /** The re-sensing loop over every segment against `faulty`, the faulty
      segment `segments[f]`. */
  method ResensePhase(segments: seq<VeinSegment>, faulty: VeinSegment, ghost f: nat, ghost vs: seq<SegmentView>,
                      ghost agents: seq<SwarmAgent>)
    requires DistinctSegments(segments) && vs == SegViewsOf(segments)
    requires f < |segments| && segments[f] == faulty && faulty.isFaulty
    modifies segments
    ensures SegViewsOf(segments) == ResenseAll(vs, f)
    ensures AgentViewsOf(agents) == old(AgentViewsOf(agents))
  {
    var k := 0;
    while k < |segments|
      invariant k <= |segments|
      invariant AgentViewsOf(agents) == old(AgentViewsOf(agents))
      invariant faulty.pooling == vs[f].pooling && faulty.valveCompetence == vs[f].valveCompetence
      invariant faulty.reflux == vs[f].reflux
      invariant forall j :: 0 <= j < k ==> segments[j].View() == Resensed(vs[j], vs[f])
      invariant forall j :: k <= j < |segments| ==> segments[j].View() == vs[j]
    {
      ghost var src := faulty.View();
      ResenseSegment(segments[k], faulty);
      ResensedSource(vs[k], src, vs[f]);
      k := k + 1;
    }
  }

  /** The sensing half of one iteration of the agent loop, with the Workers
      and Repairs on the faulty branch counted. */
  method SenseTurn(segments: seq<VeinSegment>, agents: seq<SwarmAgent>, st: Settings, k: nat, workers: nat, repairs: nat,
                   ghost w: Walk)
    returns (wk: nat, rp: nat)
    requires DistinctSegments(segments) && DistinctAgents(agents)
    requires w == Walk(SegViewsOf(segments), AgentViewsOf(agents), workers, repairs) && WalkOk(w) && k < |agents|
    modifies segments
    ensures Walk(SegViewsOf(segments), AgentViewsOf(agents), wk, rp) == SenseStep(w, k, st)
  {
    var agent := agents[k];
    var seg := segments[agent.segmentId];
    SenseSegment(seg, agent.View(), st, agents);
    wk, rp := workers, repairs;
    if agent.role == Worker && seg.isFaulty {
      wk := wk + 1;
    }
    if agent.role == Repair && seg.isFaulty {
      rp := rp + 1;
    }
    assert SegViewsOf(segments) == w.segs[agent.segmentId := seg.View()];
  }

  /** The moving half of one iteration of the agent loop. */
  method MoveTurn(segments: seq<VeinSegment>, agents: seq<SwarmAgent>, c: Conditions, k: nat, d: AgentDraw, ghost w: Walk)
    requires DistinctSegments(segments) && DistinctAgents(agents)
    requires w.segs == SegViewsOf(segments) && w.agents == AgentViewsOf(agents) && WalkOk(w) && k < |agents|
    modifies agents[k]
    ensures Walk(SegViewsOf(segments), AgentViewsOf(agents), w.workers, w.repairs) == MoveStep(w, k, c, d)
  {
    var agent := agents[k];
    var seg := segments[agent.segmentId];
    var baseSpeed := c.st.flow * (0.7 + 0.8 * ShareOf(c.shares, seg.segId, 1.0));
    assert baseSpeed == c.st.flow * (0.7 + 0.8 * ShareOf(c.shares, seg.View().segId, 1.0));
    if agent.role == Worker && seg.isFaulty {
      baseSpeed := baseSpeed * 0.6;
    }
    if agent.role == Repair && seg.isFaulty {
      baseSpeed := baseSpeed * 0.5;
    }
    if agent.role == Monitor {
      baseSpeed := baseSpeed * 0.85;
    }
    var direction := 1;
    if seg.isFaulty && c.refluxDirection < 0 {
      direction := -1;
    }
    assert baseSpeed == BaseSpeed(agent.role, seg.View(), c);
    assert direction == Direction(seg.View(), c);
    var speed := Max(0.05, baseSpeed + Uniform(-c.st.noise, c.st.noise, d.noise));
    var step := speed / seg.length;
    assert step == Speed(agent.role, seg.View(), c, d.noise) / seg.View().length;
    MoveAgent(agent, seg.View(), segments, c, step, direction, d);
    assert AgentViewsOf(agents) == w.agents[k := agent.View()];
  }

  /** What the agent loop knows after `k` turns: the objects hold the walk
      from `w` through the first `k` agents' turns. */
  ghost predicate Played(segments: seq<VeinSegment>, agents: seq<SwarmAgent>, c: Conditions, draws: seq<AgentDraw>, k: nat,
                         workers: nat, repairs: nat, w: Walk)
    reads segments, agents
  {
    && DistinctSegments(segments) && DistinctAgents(agents)
    && WalkOk(w) && |w.agents| == |agents| == |draws| && k <= |agents|
    && Walk(SegViewsOf(segments), AgentViewsOf(agents), workers, repairs) == AgentsUpTo(w, c, draws, k)
  }

  /** One iteration of the agent loop: agent `k` senses, then moves. */
  method AgentTurn(segments: seq<VeinSegment>, agents: seq<SwarmAgent>, c: Conditions, draws: seq<AgentDraw>, k: nat,
                   workers: nat, repairs: nat, ghost w: Walk)
    returns (wk: nat, rp: nat)
    requires Played(segments, agents, c, draws, k, workers, repairs, w) && k < |agents|
    modifies segments, agents
    ensures Played(segments, agents, c, draws, k + 1, wk, rp, w)
  {
    ghost var cur := AgentsUpTo(w, c, draws, k);
    wk, rp := SenseTurn(segments, agents, c.st, k, workers, repairs, cur);
    MoveTurn(segments, agents, c, k, draws[k], SenseStep(cur, k, c.st));
  }

  /** The agent loop, returning the counts of Workers and Repairs the agents
      found on the faulty branch. */
  method AgentPhase(segments: seq<VeinSegment>, agents: seq<SwarmAgent>, c: Conditions, draws: seq<AgentDraw>, ghost w: Walk)
    returns (workers: nat, repairs: nat)
    requires DistinctSegments(segments) && DistinctAgents(agents)
    requires w == Walk(SegViewsOf(segments), AgentViewsOf(agents), 0, 0) && WalkOk(w) && |draws| == |agents|
    modifies segments, agents
    ensures Walk(SegViewsOf(segments), AgentViewsOf(agents), workers, repairs) == AgentsUpTo(w, c, draws, |agents|)
  {
    workers, repairs := 0, 0;
    var k := 0;
    while k < |agents|
      invariant Played(segments, agents, c, draws, k, workers, repairs, w)
    {
      workers, repairs := AgentTurn(segments, agents, c, draws, k, workers, repairs, w);
      k := k + 1;
    }
  }

  /** Valve remodelling: Repairs on the faulty branch strengthen its valve. */
  method RemodelPhase(faulty: VeinSegment, phase: Phase, repairs: nat, ghost segments: seq<VeinSegment>, ghost f: nat,
                      ghost vs: seq<SegmentView>, ghost agents: seq<SwarmAgent>)
    requires DistinctSegments(segments) && vs == SegViewsOf(segments) && f < |segments| && segments[f] == faulty
    modifies faulty
    ensures SegViewsOf(segments) == Remodeled(vs, f, phase, repairs)
    ensures AgentViewsOf(agents) == old(AgentViewsOf(agents))
  {
    if phase == Remodeling && repairs > 0 {
      faulty.valveCompetence := Clamp(faulty.valveCompetence + 0.0008 * repairs as real, 0.0, 1.0);
      assert SegViewsOf(segments) == vs[f := faulty.View()];
    }
  }

  /** The phase label of frame `frameIdx`, from `time_sec = frame_idx / fps`. */
  method CurrentPhase(frameIdx: nat, fps: nat) returns (phase: Phase)
    requires fps > 0
    ensures phase == PhaseAt(frameIdx, fps)
  {
    var timeSec := frameIdx as real / fps as real;
    if timeSec < 5.0 {
      phase := Baseline;
    } else if timeSec < 12.0 {
      phase := TemporaryPlug;
    } else {
      phase := Remodeling;
    }
  }

  /** The top of a frame: compute_flow_shares, the search for the faulty
      segment, and its reflux pulse and pooling change. */
  method OpenFrame(segments: seq<VeinSegment>, agents: seq<SwarmAgent>, plugProgress: real, st: Settings, sine: real,
                   ghost sv: FlowView)
    returns (shares: Shares, faulty: VeinSegment, refluxDirection: int)
    requires DistinctSegments(segments) && st.fps > 0
    requires FlowOk(sv) && sv.segs == SegViewsOf(segments) && sv.agents == AgentViewsOf(agents)
    requires plugProgress == sv.plug.progress
    modifies segments
    ensures shares == FrameShares(sv) && refluxDirection == FrameDirection(sv, st, sine)
    ensures |segments| == SegmentCount && faulty == segments[FaultyId] && faulty.isFaulty
    ensures SegViewsOf(segments) == Pulsed(sv, st, sine) && AgentViewsOf(agents) == sv.agents
  {
    FlowDefinedOk(sv.segs, plugProgress);
    OpenedFacts(sv.segs, plugProgress);
    shares := ComputeFlowShares(segments, plugProgress);
    FirstFaultyInLayout(SegViewsOf(segments));
    var f := FindFaulty(segments);
    faulty := segments[f];
    refluxDirection := PulseFaulty(faulty, shares, plugProgress, sine, st.fps, agents);
    assert SegViewsOf(segments) == Pulsed(sv, st, sine);
  }

  /** The first half of a frame: the top of the frame and re-sensing. */
  method StartFrame(segments: seq<VeinSegment>, agents: seq<SwarmAgent>, plugProgress: real, st: Settings, sine: real,
                    ghost sv: FlowView)
    returns (shares: Shares, faulty: VeinSegment, refluxDirection: int)
    requires DistinctSegments(segments) && st.fps > 0
    requires FlowOk(sv) && sv.segs == SegViewsOf(segments) && sv.agents == AgentViewsOf(agents)
    requires plugProgress == sv.plug.progress
    modifies segments
    ensures shares == FrameShares(sv) && refluxDirection == FrameDirection(sv, st, sine)
    ensures |segments| == SegmentCount && faulty == segments[FaultyId]
    ensures Walk(SegViewsOf(segments), AgentViewsOf(agents), 0, 0) == StartWalk(sv, st, sine)
  {
    shares, faulty, refluxDirection := OpenFrame(segments, agents, plugProgress, st, sine, sv);
    ResensePhase(segments, faulty, FaultyId, SegViewsOf(segments), agents);
  }

  /** A frame spelled out from the walk it starts with: the agent loop, the
      plug update with the Workers it counted, remodelling with the Repairs it
      counted, and the tracers for the updated plug. */
  lemma TickIs(sv: FlowView, st: Settings, frameIdx: nat, fd: FrameDraws)
    requires FlowOk(sv) && st.fps > 0 && FrameDrawsOk(fd, |sv.agents|)
    ensures var w0 := StartWalk(sv, st, fd.sine);
            var c := FrameConditions(sv, st, fd.sine);
            && WalkOk(w0) && |fd.draws| == |w0.agents|
            && var w := AgentsUpTo(w0, c, fd.draws, |w0.agents|);
               var phase := PhaseAt(frameIdx, st.fps);
               var plug := PlugUpdate(sv.plug, phase, w.workers, WorkerThreshold(st.swarmSize), st.fps);
               && InUnit(plug.progress) && |w.segs| == SegmentCount
               && Tick(sv, st, frameIdx, fd)
                  == FlowView(Remodeled(w.segs, FaultyId, phase, w.repairs), w.agents,
                              TracersAll(sv.tracers, c.shares, plug.progress, c.refluxDirection, fd.tracerDraws), plug)
  {
    StartWalkOk(sv, st, fd.sine);
    var w := TickWalk(sv, st, fd);
    PlugUpdateKeeps(sv.plug, PhaseAt(frameIdx, st.fps), w.workers, WorkerThreshold(st.swarmSize), st.fps);
  }

  /** The agent loop and the plug update of a frame. */
  method WalkFrame(segments: seq<VeinSegment>, agents: seq<SwarmAgent>, plug: Plug, st: Settings, threshold: nat,
                   frameIdx: nat, c: Conditions, draws: seq<AgentDraw>, ghost w0: Walk)
    returns (repairs: nat, pl: Plug, phase: Phase)
    requires DistinctSegments(segments) && DistinctAgents(agents) && st.fps > 0
    requires w0 == Walk(SegViewsOf(segments), AgentViewsOf(agents), 0, 0) && WalkOk(w0) && |draws| == |agents|
    modifies segments, agents
    ensures var w := AgentsUpTo(w0, c, draws, |agents|);
            && SegViewsOf(segments) == w.segs && AgentViewsOf(agents) == w.agents && repairs == w.repairs
            && pl == PlugUpdate(plug, PhaseAt(frameIdx, st.fps), w.workers, threshold, st.fps)
    ensures phase == PhaseAt(frameIdx, st.fps)
  {
    var workers;
    workers, repairs := AgentPhase(segments, agents, c, draws, w0);
    phase := CurrentPhase(frameIdx, st.fps);
    pl := UpdatePlug(plug, phase, workers, threshold, st.fps);
  }

  /** The second half of a frame from the walk `w0` it starts with: the
      agent loop, the plug, remodelling and the tracers; returns the new
      tracer lists and plug. */
  method FinishFrame(segments: seq<VeinSegment>, agents: seq<SwarmAgent>, tracers: seq<seq<real>>, plug: Plug,
                     st: Settings, threshold: nat, frameIdx: nat, fd: FrameDraws, c: Conditions, faulty: VeinSegment,
                     ghost w0: Walk)
    returns (tr: seq<seq<real>>, pl: Plug)
    requires DistinctSegments(segments) && DistinctAgents(agents) && st.fps > 0 && PlugOk(plug)
    requires w0 == Walk(SegViewsOf(segments), AgentViewsOf(agents), 0, 0) && WalkOk(w0) && |fd.draws| == |agents|
    requires faulty == segments[FaultyId] && SharesOk(c.shares) && (c.refluxDirection == 1 || c.refluxDirection == -1)
    requires |fd.tracerDraws| == |tracers| && forall id :: 0 <= id < |tracers| ==> |fd.tracerDraws[id]| == MaxTracers
    modifies segments, agents
    ensures var w := AgentsUpTo(w0, c, fd.draws, |agents|);
            var phase := PhaseAt(frameIdx, st.fps);
            && pl == PlugUpdate(plug, phase, w.workers, threshold, st.fps) && InUnit(pl.progress)
            && SegViewsOf(segments) == Remodeled(w.segs, FaultyId, phase, w.repairs) && AgentViewsOf(agents) == w.agents
            && tr == TracersAll(tracers, c.shares, pl.progress, c.refluxDirection, fd.tracerDraws)
  {
    var repairs, phase;
    repairs, pl, phase := WalkFrame(segments, agents, plug, st, threshold, frameIdx, c, fd.draws, w0);
    ghost var w := AgentsUpTo(w0, c, fd.draws, |agents|);
    PlugUpdateKeeps(plug, phase, w.workers, threshold, st.fps);
    RemodelPhase(faulty, phase, repairs, segments, FaultyId, SegViewsOf(segments), agents);
    tr := UpdateTracers(tracers, c.shares, pl.progress, c.refluxDirection, fd.tracerDraws);
  }

  /** The body of the frame loop for frame `frameIdx`, without the
      rendering; returns the new tracer lists and plug. */
  method RunFrame(segments: seq<VeinSegment>, agents: seq<SwarmAgent>, tracers: seq<seq<real>>, plug: Plug,
                  st: Settings, threshold: nat, frameIdx: nat, fd: FrameDraws, ghost sv: FlowView)
    returns (tr: seq<seq<real>>, pl: Plug)
    requires DistinctSegments(segments) && DistinctAgents(agents) && st.fps > 0
    requires FlowOk(sv) && sv == FlowView(SegViewsOf(segments), AgentViewsOf(agents), tracers, plug)
    requires FrameDrawsOk(fd, |agents|) && threshold == WorkerThreshold(st.swarmSize)
    modifies segments, agents
    ensures FlowView(SegViewsOf(segments), AgentViewsOf(agents), tr, pl) == Frame(sv, st, frameIdx, fd)
  {
    TickIs(sv, st, frameIdx, fd);
    var shares, faulty, refluxDirection := StartFrame(segments, agents, plug.progress, st, fd.sine, sv);
    var c := Conditions(st, shares, refluxDirection);
    tr, pl := FinishFrame(segments, agents, tracers, plug, st, threshold, frameIdx, fd, c, faulty,
                          Walk(SegViewsOf(segments), AgentViewsOf(agents), 0, 0));
  }

  /** The set-up: build_network, initialize_pathology, create_agents, empty
      tracer lists and an inactive plug. */
  method SetUp(n: nat, lengths: seq<real>, roles: seq<Role>, tDraws: seq<real>)
    returns (segments: seq<VeinSegment>, agents: seq<SwarmAgent>, tracers: seq<seq<real>>, plug: Plug)
    requires NetworkLengths(lengths) && Shuffled(roles, n) && DrawsFor(tDraws, n)
    ensures DistinctSegments(segments) && DistinctAgents(agents)
    ensures forall k :: 0 <= k < |segments| ==> fresh(segments[k])
    ensures forall k :: 0 <= k < |agents| ==> fresh(agents[k])
    ensures FlowView(SegViewsOf(segments), AgentViewsOf(agents), tracers, plug) == InitialState(lengths, roles, tDraws)
  {
    segments := BuildNetwork(lengths);
    InitializePathology(segments);
    ghost var segViews := SegViewsOf(segments);
    agents := CreateAgents(n, roles, tDraws);
    assert SegViewsOf(segments) == segViews;
    tracers := NoTracers;
    plug := InitialPlug;
  }

  /** Frame `f` of the loop moves the objects from `T[f]` to `T[f + 1]`. */
  method LoopStep(segments: seq<VeinSegment>, agents: seq<SwarmAgent>, tracers: seq<seq<real>>, plug: Plug,
                  st: Settings, threshold: nat, fds: seq<FrameDraws>, f: nat, ghost T: seq<FlowView>, ghost m: nat)
    returns (tr: seq<seq<real>>, pl: Plug)
    requires DistinctSegments(segments) && DistinctAgents(agents) && threshold == WorkerThreshold(st.swarmSize)
    requires Chained(T, st, fds, m) && f < |fds|
    requires T[f] == FlowView(SegViewsOf(segments), AgentViewsOf(agents), tracers, plug)
    modifies segments, agents
    ensures FlowView(SegViewsOf(segments), AgentViewsOf(agents), tr, pl) == T[f + 1]
  {
    tr, pl := RunFrame(segments, agents, tracers, plug, st, threshold, f, fds[f], T[f]);
  }

  /** The frame loop over `num_frames` frames, passing through the states of
      the chain `T`. */
  method FrameLoop(segments: seq<VeinSegment>, agents: seq<SwarmAgent>, tracers: seq<seq<real>>, plug: Plug,
                   st: Settings, numFrames: nat, fds: seq<FrameDraws>, ghost T: seq<FlowView>, ghost m: nat)
    returns (tr: seq<seq<real>>, pl: Plug)
    requires DistinctSegments(segments) && DistinctAgents(agents)
    requires Chained(T, st, fds, m) && numFrames == |fds|
    requires T[0] == FlowView(SegViewsOf(segments), AgentViewsOf(agents), tracers, plug)
    modifies segments, agents
    ensures FlowView(SegViewsOf(segments), AgentViewsOf(agents), tr, pl) == T[numFrames]
  {
    var threshold := WorkerThreshold(st.swarmSize);
    tr, pl := tracers, plug;
    var f := 0;
    while f < numFrames
      invariant f <= numFrames
      invariant FlowView(SegViewsOf(segments), AgentViewsOf(agents), tr, pl) == T[f]
    {
      tr, pl := LoopStep(segments, agents, tr, pl, st, threshold, fds, f, T, m);
      f := f + 1;
    }
  }

  /** The final compute_flow_shares on the objects in the state `sv`. */
  method FinishRun(segments: seq<VeinSegment>, agents: seq<SwarmAgent>, tracers: seq<seq<real>>, plug: Plug,
                   ghost sv: FlowView)
    returns (shares: Shares)
    requires DistinctSegments(segments) && FlowOk(sv)
    requires sv == FlowView(SegViewsOf(segments), AgentViewsOf(agents), tracers, plug)
    modifies segments
    ensures FlowView(SegViewsOf(segments), AgentViewsOf(agents), tracers, plug) == FinalState(sv)
    ensures shares == FrameShares(sv)
  {
    FlowDefinedOk(sv.segs, plug.progress);
    shares := ComputeFlowShares(segments, plug.progress);
  }

  /** The frames of a run from `init`, then the final compute_flow_shares. */
  method RunAll(segments: seq<VeinSegment>, agents: seq<SwarmAgent>, tracers: seq<seq<real>>, plug: Plug,
                st: Settings, numFrames: nat, fds: seq<FrameDraws>, ghost init: FlowView)
    returns (tr: seq<seq<real>>, pl: Plug, shares: Shares)
    requires DistinctSegments(segments) && DistinctAgents(agents) && (st.fps > 0 || numFrames == 0)
    requires FlowOk(init) && init == FlowView(SegViewsOf(segments), AgentViewsOf(agents), tracers, plug)
    requires numFrames == |fds| && AllFramesOk(fds, |init.agents|)
    modifies segments, agents
    ensures FlowView(SegViewsOf(segments), AgentViewsOf(agents), tr, pl) == RunToEnd(init, st, fds)
    ensures shares == EndShares(init, st, fds)
  {
    ghost var T := RunChain(init, st, fds);
    tr, pl := FrameLoop(segments, agents, tracers, plug, st, numFrames, fds, T, |init.agents|);
    shares := FinishRun(segments, agents, tr, pl, T[numFrames]);
  }

  /** create_flow_redirection_simulation without the rendering: the set-up,
      `duration_sec * fps` frames and the final compute_flow_shares. The
      objects end in the state `Simulation` describes and the shares are
      `FinalShares`. */
  method CreateFlowRedirectionSimulation(st: Settings, durationSec: nat, lengths: seq<real>, roles: seq<Role>,
                                         tDraws: seq<real>, fds: seq<FrameDraws>)
    returns (segments: seq<VeinSegment>, agents: seq<SwarmAgent>, tracers: seq<seq<real>>, plug: Plug,
             finalShares: Shares)
    requires NetworkLengths(lengths) && Shuffled(roles, st.swarmSize) && DrawsFor(tDraws, st.swarmSize)
    requires |fds| == FrameCount(durationSec, st.fps) && AllFramesOk(fds, st.swarmSize)
    ensures DistinctSegments(segments) && DistinctAgents(agents)
    ensures FlowView(SegViewsOf(segments), AgentViewsOf(agents), tracers, plug)
         == Simulation(st, durationSec, lengths, roles, tDraws, fds)
    ensures finalShares == FinalShares(st, durationSec, lengths, roles, tDraws, fds)
  {
    segments, agents, tracers, plug := SetUp(st.swarmSize, lengths, roles, tDraws);
    ghost var init := InitialState(lengths, roles, tDraws);
    InitialStateOk(st.swarmSize, lengths, roles, tDraws);
    var numFrames := FrameCount(durationSec, st.fps);
    tracers, plug, finalShares := RunAll(segments, agents, tracers, plug, st, numFrames, fds, init);
  }
}
