/** The agents of the role-based swarm and one tick of its simulation loop
    (run_swarm_vein_sim.py): agent creation with fixed role ratios, the role
    tally, periodic role switching, and the per-frame update of segments and
    agents. */
module SwarmVeinTick {
  import opened Basics
  import opened Numeric
  import opened Tally
  import opened SwarmVein

  // ---------------------------------------------------------------- agents

  /** The state of one `SwarmAgent`: its role, the segment it is on, its
      position `t` along that segment and its direction of travel. */
  datatype AgentView = AgentView(role: Role, segmentId: nat, t: real, direction: int)

  class SwarmAgent {
    var role: Role
    var segmentId: nat
    var t: real
    var direction: int

    function View(): AgentView
      reads this
    {
      AgentView(role, segmentId, t, direction)
    }

    constructor (role: Role, segmentId: nat, t: real, direction: int)
      ensures View() == AgentView(role, segmentId, t, direction)
    {
      this.role, this.segmentId, this.t, this.direction := role, segmentId, t, direction;
    }
  }

  function AgentViewsOf(agents: seq<SwarmAgent>): (vs: seq<AgentView>)
    reads agents
    ensures |vs| == |agents| && forall k :: 0 <= k < |agents| ==> vs[k] == agents[k].View()
  {
    seq(|agents|, k requires 0 <= k < |agents| reads agents => agents[k].View())
  }

  ghost predicate DistinctAgents(agents: seq<SwarmAgent>) {
    forall a, b :: 0 <= a < b < |agents| ==> agents[a] != agents[b]
  }

  function Roles(vs: seq<AgentView>): (rs: seq<Role>)
    ensures |rs| == |vs| && forall k :: 0 <= k < |vs| ==> rs[k] == vs[k].role
  {
    seq(|vs|, k requires 0 <= k < |vs| => vs[k].role)
  }

  // ---------------------------------------------------------------- role_counts

  datatype RoleTally = RoleTally(scout: nat, worker: nat, support: nat, monitor: nat)

  function TallyOf(rs: seq<Role>): RoleTally {
    RoleTally(Count(rs, Scout), Count(rs, Worker), Count(rs, Support), Count(rs, Monitor))
  }

  function TallyTotal(c: RoleTally): nat {
    c.scout + c.worker + c.support + c.monitor
  }

  /** Every agent holds exactly one of the four roles, so the tally adds up to
      the population. */
  lemma {:induction false} TallyCoversAll(rs: seq<Role>)
    ensures TallyTotal(TallyOf(rs)) == |rs|
  {
    if rs != [] {
      var init := rs[..|rs| - 1];
      TallyCoversAll(init);
      assert TallyOf(rs) == TallyOf(init).(
        scout := Count(init, Scout) + (if rs[|rs| - 1] == Scout then 1 else 0),
        worker := Count(init, Worker) + (if rs[|rs| - 1] == Worker then 1 else 0),
        support := Count(init, Support) + (if rs[|rs| - 1] == Support then 1 else 0),
        monitor := Count(init, Monitor) + (if rs[|rs| - 1] == Monitor then 1 else 0));
    }
  }

  /** role_counts: one counter per role, incremented for each agent. */
  method RoleCounts(agents: seq<SwarmAgent>) returns (c: RoleTally)
    ensures c == TallyOf(Roles(AgentViewsOf(agents)))
  {
    ghost var rs := Roles(AgentViewsOf(agents));
    c := RoleTally(0, 0, 0, 0);
    var k := 0;
    while k < |agents|
      invariant k <= |agents|
      invariant c == TallyOf(rs[..k])
    {
      assert rs[..k + 1][..k] == rs[..k];
      match agents[k].role {
        case Scout => c := c.(scout := c.scout + 1);
        case Worker => c := c.(worker := c.worker + 1);
        case Support => c := c.(support := c.support + 1);
        case Monitor => c := c.(monitor := c.monitor + 1);
      }
      k := k + 1;
    }
    assert rs[..k] == rs;
  }

  // ---------------------------------------------------------------- create_agents

  /** `int(swarm_size * percent / 100)` for a non-negative swarm size. */
  function Quota(n: nat, percent: nat): nat {
    n * percent / 100
  }

  lemma QuotasFit(n: nat)
    ensures Quota(n, 25) + Quota(n, 45) + Quota(n, 15) <= n
  {
    assert Quota(n, 25) * 100 <= n * 25;
    assert Quota(n, 45) * 100 <= n * 45;
    assert Quota(n, 15) * 100 <= n * 15;
  }

  /** The Monitors take whatever the other three quotas leave. */
  function MonitorQuota(n: nat): nat {
    QuotasFit(n);
    n - (Quota(n, 25) + Quota(n, 45) + Quota(n, 15))
  }

  /** The role list before shuffling: Scouts, Workers, Supports, then Monitors. */
  function RoleList(n: nat): seq<Role> {
    Repeat(Scout, Quota(n, 25)) + Repeat(Worker, Quota(n, 45))
    + Repeat(Support, Quota(n, 15)) + Repeat(Monitor, MonitorQuota(n))
  }

  lemma RoleListMultiset(n: nat)
    ensures multiset(RoleList(n))[Scout] == Quota(n, 25)
    ensures multiset(RoleList(n))[Worker] == Quota(n, 45)
    ensures multiset(RoleList(n))[Support] == Quota(n, 15)
    ensures multiset(RoleList(n))[Monitor] == MonitorQuota(n)
    ensures |RoleList(n)| == n
  {
    RepeatMultiset(Scout, Quota(n, 25));
    RepeatMultiset(Worker, Quota(n, 45));
    RepeatMultiset(Support, Quota(n, 15));
    RepeatMultiset(Monitor, MonitorQuota(n));
  }

  /** A shuffle of the role list, supplied as the permutation `rng.shuffle` chose. */
  predicate Shuffled(roles: seq<Role>, n: nat) {
    |roles| == n && multiset(roles) == multiset(RoleList(n))
  }

  predicate DrawsFor(ds: seq<real>, n: nat) {
    |ds| == n && forall k :: 0 <= k < n ==> IsDraw(ds[k])
  }

  /** The agent made for one shuffled role: on the trunk at a random position,
      heading backwards only when it is a Monitor whose direction draw is below 0.5. */
  function Recruit(role: Role, dirDraw: real, tDraw: real): AgentView {
    AgentView(role, 0, tDraw, if role == Monitor && dirDraw < 0.5 then -1 else 1)
  }

  function Recruits(roles: seq<Role>, dirDraws: seq<real>, tDraws: seq<real>): (vs: seq<AgentView>)
    requires |dirDraws| == |roles| && |tDraws| == |roles|
    ensures |vs| == |roles|
  {
    seq(|roles|, k requires 0 <= k < |roles| => Recruit(roles[k], dirDraws[k], tDraws[k]))
  }

  /** What create_agents promises: exactly `n` agents, of which 25%, 45% and 15%
      (rounded down) are Scouts, Workers and Supports and the rest Monitors; all
      start on segment 0 with `t` in [0,1), and only Monitors may face backwards. */
  lemma RecruitsFacts(n: nat, roles: seq<Role>, dirDraws: seq<real>, tDraws: seq<real>)
    requires Shuffled(roles, n) && DrawsFor(dirDraws, n) && DrawsFor(tDraws, n)
    ensures var vs := Recruits(roles, dirDraws, tDraws);
            && |vs| == n
            && TallyOf(Roles(vs)) == RoleTally(Quota(n, 25), Quota(n, 45), Quota(n, 15), MonitorQuota(n))
            && MonitorQuota(n) + Quota(n, 25) + Quota(n, 45) + Quota(n, 15) == n
            && forall k :: 0 <= k < n ==>
                 && vs[k].segmentId == 0 && 0.0 <= vs[k].t < 1.0
                 && (vs[k].direction == 1 || vs[k].direction == -1)
                 && (vs[k].direction == -1 ==> vs[k].role == Monitor)
  {
    var vs := Recruits(roles, dirDraws, tDraws);
    assert Roles(vs) == roles;
    RoleListMultiset(n);
    CountIsMultiplicity(roles, Scout);
    CountIsMultiplicity(roles, Worker);
    CountIsMultiplicity(roles, Support);
    CountIsMultiplicity(roles, Monitor);
  }

  /** create_agents, given the shuffled roles and the draws for directions and
      positions: fresh, distinct agents, one per role. */
  method CreateAgents(n: nat, roles: seq<Role>, dirDraws: seq<real>, tDraws: seq<real>)
    returns (agents: seq<SwarmAgent>)
    requires Shuffled(roles, n) && DrawsFor(dirDraws, n) && DrawsFor(tDraws, n)
    ensures DistinctAgents(agents) && forall k :: 0 <= k < |agents| ==> fresh(agents[k])
    ensures AgentViewsOf(agents) == Recruits(roles, dirDraws, tDraws)
  {
    agents := [];
    var k := 0;
    while k < |roles|
      invariant k <= |roles| && |agents| == k && DistinctAgents(agents)
      invariant forall j :: 0 <= j < k ==> fresh(agents[j])
      invariant forall j :: 0 <= j < k ==> agents[j].View() == Recruit(roles[j], dirDraws[j], tDraws[j])
    {
      var role := roles[k];
      var direction := if role == Monitor && dirDraws[k] < 0.5 then -1 else 1;
      var agent := new SwarmAgent(role, 0, tDraws[k], direction);
      agents := agents + [agent];
      k := k + 1;
    }
  }

  // ---------------------------------------------------------------- update_role_switching

  /** The orders `rng.shuffle` puts the candidates of each relabelling in,
      given as permutations of the agent indices. */
  datatype Orders = Orders(scouts: seq<nat>, workers: seq<nat>, monitors: seq<nat>)

  predicate NoDuplicates(s: seq<nat>) {
    forall a, b :: 0 <= a < b < |s| ==> s[a] != s[b]
  }

  predicate IsOrder(order: seq<nat>, n: nat) {
    |order| == n && (forall k :: 0 <= k < n ==> order[k] < n) && NoDuplicates(order)
  }

  predicate OrdersFor(o: Orders, n: nat) {
    IsOrder(o.scouts, n) && IsOrder(o.workers, n) && IsOrder(o.monitors, n)
  }

  /** The first `k` agents of role `from` in the shuffled order. */
  function Pick(order: seq<nat>, vs: seq<AgentView>, from: Role, k: nat): (chosen: seq<nat>)
    requires forall i :: 0 <= i < |order| ==> order[i] < |vs|
    ensures |chosen| <= k
    ensures forall i :: 0 <= i < |chosen| ==> chosen[i] < |vs| && vs[chosen[i]].role == from
    ensures forall i :: 0 <= i < |chosen| ==> chosen[i] in order
    decreases |order|
  {
    if order == [] || k == 0 then []
    else if vs[order[0]].role == from then [order[0]] + Pick(order[1..], vs, from, k - 1)
    else Pick(order[1..], vs, from, k)
  }

  lemma {:induction false} PickNoDuplicates(order: seq<nat>, vs: seq<AgentView>, from: Role, k: nat)
    requires forall i :: 0 <= i < |order| ==> order[i] < |vs|
    requires NoDuplicates(order)
    ensures NoDuplicates(Pick(order, vs, from, k))
    decreases |order|
  {
    if order != [] && k != 0 {
      var rest := order[1..];
      assert NoDuplicates(rest) by {
        forall a, b | 0 <= a < b < |rest|
          ensures rest[a] != rest[b]
        {
          assert rest[a] == order[a + 1] && rest[b] == order[b + 1];
        }
      }
      assert order[0] !in rest by {
        forall i | 0 <= i < |rest|
          ensures rest[i] != order[0]
        {
          assert rest[i] == order[i + 1];
        }
      }
      if vs[order[0]].role == from {
        PickNoDuplicates(rest, vs, from, k - 1);
      } else {
        PickNoDuplicates(rest, vs, from, k);
      }
    }
  }

  /** The chosen agents take role `to`. */
  function Relabel(vs: seq<AgentView>, chosen: seq<nat>, to: Role): (r: seq<AgentView>)
    requires forall i :: 0 <= i < |chosen| ==> chosen[i] < |vs|
    ensures |r| == |vs|
  {
    if chosen == [] then vs
    else
      var r0 := Relabel(vs, chosen[..|chosen| - 1], to);
      var c := chosen[|chosen| - 1];
      r0[c := r0[c].(role := to)]
  }

  /** Relabelling one more chosen agent. */
  lemma RelabelSnoc(vs: seq<AgentView>, chosen: seq<nat>, m: nat, to: Role)
    requires forall i :: 0 <= i < |chosen| ==> chosen[i] < |vs|
    requires m < |chosen|
    ensures var r := Relabel(vs, chosen[..m], to);
            Relabel(vs, chosen[..m + 1], to) == r[chosen[m] := r[chosen[m]].(role := to)]
  {
    assert chosen[..m + 1][..m] == chosen[..m];
  }

  /** Relabelling changes exactly the chosen agents, and only their role. */
  lemma {:induction false} RelabelContent(vs: seq<AgentView>, chosen: seq<nat>, to: Role)
    requires forall i :: 0 <= i < |chosen| ==> chosen[i] < |vs|
    ensures var r := Relabel(vs, chosen, to);
            forall i :: 0 <= i < |vs| ==> r[i] == (if i in chosen then vs[i].(role := to) else vs[i])
  {
    if chosen != [] {
      var prefix := chosen[..|chosen| - 1];
      var c := chosen[|chosen| - 1];
      RelabelContent(vs, prefix, to);
      forall i | 0 <= i < |vs|
        ensures Relabel(vs, chosen, to)[i] == (if i in chosen then vs[i].(role := to) else vs[i])
      {
        assert i in chosen <==> i in prefix || i == c;
      }
    }
  }

  /** Relabelling distinct agents of role `from` moves |chosen| agents from
      `from` to `to` and leaves the other role counts alone. */
  lemma {:induction false} RelabelCounts(vs: seq<AgentView>, chosen: seq<nat>, from: Role, to: Role)
    requires forall i :: 0 <= i < |chosen| ==> chosen[i] < |vs| && vs[chosen[i]].role == from
    requires NoDuplicates(chosen) && from != to
    ensures var r := Relabel(vs, chosen, to);
            && Count(Roles(r), from) + |chosen| == Count(Roles(vs), from)
            && Count(Roles(r), to) == Count(Roles(vs), to) + |chosen|
            && (forall x :: x != from && x != to ==> Count(Roles(r), x) == Count(Roles(vs), x))
  {
    if chosen != [] {
      var prefix := chosen[..|chosen| - 1];
      var c := chosen[|chosen| - 1];
      assert NoDuplicates(prefix);
      RelabelCounts(vs, prefix, from, to);
      RelabelContent(vs, prefix, to);
      var r0 := Relabel(vs, prefix, to);
      assert c !in prefix;
      assert r0[c] == vs[c];
      var r := r0[c := r0[c].(role := to)];
      assert Roles(r) == Roles(r0)[c := to];
      forall x
        ensures Count(Roles(r), x) + (if from == x then 1 else 0) == Count(Roles(r0), x) + (if to == x then 1 else 0)
      {
        CountUpdate(Roles(r0), c, to, x);
      }
    }
  }

  /** One relabelling of update_role_switching: when it fires, the first `k`
      agents of role `from` in the shuffled order take role `to`. */
  function SwitchStage(vs: seq<AgentView>, order: seq<nat>, from: Role, to: Role, k: nat, fire: bool)
    : (r: seq<AgentView>)
    requires IsOrder(order, |vs|)
    ensures |r| == |vs|
  {
    if fire then Relabel(vs, Pick(order, vs, from, k), to) else vs
  }

  /** A stage moves at most `k` agents of role `from` to role `to`; the other
      two roles keep their counts. */
  lemma StageCounts(vs: seq<AgentView>, order: seq<nat>, from: Role, to: Role, k: nat, fire: bool)
    requires IsOrder(order, |vs|) && from != to
    ensures var r := SwitchStage(vs, order, from, to, k, fire);
            var moved := Count(Roles(vs), from) - Count(Roles(r), from);
            && 0 <= moved <= k
            && Count(Roles(r), to) == Count(Roles(vs), to) + moved
            && (forall x :: x != from && x != to ==> Count(Roles(r), x) == Count(Roles(vs), x))
  {
    if fire {
      PickNoDuplicates(order, vs, from, k);
      RelabelContent(vs, Pick(order, vs, from, k), to);
      RelabelCounts(vs, Pick(order, vs, from, k), from, to);
    }
  }

  /** A stage changes nothing when it does not fire, and otherwise only the
      role of some agents of role `from`, which become `to`. */
  lemma StageKeeps(vs: seq<AgentView>, order: seq<nat>, from: Role, to: Role, k: nat, fire: bool)
    requires IsOrder(order, |vs|) && from != to
    ensures var r := SwitchStage(vs, order, from, to, k, fire);
            && (!fire ==> r == vs)
            && (forall i :: 0 <= i < |vs| ==> r[i] == vs[i] || (vs[i].role == from && r[i] == vs[i].(role := to)))
  {
    if fire {
      PickNoDuplicates(order, vs, from, k);
      RelabelContent(vs, Pick(order, vs, from, k), to);
      RelabelCounts(vs, Pick(order, vs, from, k), from, to);
    }
  }

  function Beacons(vs: seq<SegmentView>): (xs: seq<real>)
    ensures |xs| == |vs|
  {
    seq(|vs|, k requires 0 <= k < |vs| => vs[k].beacon)
  }

  function StrainNorms(vs: seq<SegmentView>): (xs: seq<real>)
    ensures |xs| == |vs|
  {
    seq(|vs|, k requires 0 <= k < |vs| => StrainNormOf(vs[k]))
  }

  function Mappings(vs: seq<SegmentView>): (xs: seq<real>)
    ensures |xs| == |vs|
  {
    seq(|vs|, k requires 0 <= k < |vs| => vs[k].mapping)
  }

  function Average(xs: seq<real>): real
    requires |xs| > 0
  {
    Sum(xs) / |xs| as real
  }

  /** Whether role switching runs on this frame. */
  predicate SwitchFires(roleSwitch: bool, fps: nat, frameIdx: nat)
    requires fps > 0
  {
    roleSwitch && frameIdx % fps == 0
  }

  /** update_role_switching: with a high average beacon two Scouts become
      Workers, with a high average strain one Worker becomes a Support, and with
      a high average mapping one Monitor becomes a Scout, in that order. */
  function RoleSwitch(vs: seq<AgentView>, segs: seq<SegmentView>, orders: Orders, roleSwitch: bool, fps: nat, frameIdx: nat)
    : (r: seq<AgentView>)
    requires fps > 0 && |segs| > 0 && OrdersFor(orders, |vs|)
    ensures |r| == |vs|
  {
    if !SwitchFires(roleSwitch, fps, frameIdx) then vs
    else
      var s1 := SwitchStage(vs, orders.scouts, Scout, Worker, 2, Average(Beacons(segs)) > 0.25);
      var s2 := SwitchStage(s1, orders.workers, Worker, Support, 1, Average(StrainNorms(segs)) > 0.35);
      SwitchStage(s2, orders.monitors, Monitor, Scout, 1, Average(Mappings(segs)) > 0.7)
  }

  /** The role changes role switching can make to one agent. */
  predicate Promotion(before: Role, after: Role) {
    || before == after
    || (before == Scout && (after == Worker || after == Support))
    || (before == Worker && after == Support)
    || (before == Monitor && after == Scout)
  }

  /** Role switching keeps every agent (and its segment, position and
      direction) and changes nothing off its frames; an agent's role can only
      change along a Promotion. */
  lemma RoleSwitchKeeps(vs: seq<AgentView>, segs: seq<SegmentView>, orders: Orders, roleSwitch: bool, fps: nat, frameIdx: nat)
    requires fps > 0 && |segs| > 0 && OrdersFor(orders, |vs|)
    ensures var r := RoleSwitch(vs, segs, orders, roleSwitch, fps, frameIdx);
            && (!SwitchFires(roleSwitch, fps, frameIdx) ==> r == vs)
            && (forall i :: 0 <= i < |vs| ==>
                  r[i] == vs[i].(role := r[i].role) && Promotion(vs[i].role, r[i].role))
  {
    var r := RoleSwitch(vs, segs, orders, roleSwitch, fps, frameIdx);
    if SwitchFires(roleSwitch, fps, frameIdx) {
      var s1 := SwitchStage(vs, orders.scouts, Scout, Worker, 2, Average(Beacons(segs)) > 0.25);
      StageKeeps(vs, orders.scouts, Scout, Worker, 2, Average(Beacons(segs)) > 0.25);
      var s2 := SwitchStage(s1, orders.workers, Worker, Support, 1, Average(StrainNorms(segs)) > 0.35);
      StageKeeps(s1, orders.workers, Worker, Support, 1, Average(StrainNorms(segs)) > 0.35);
      StageKeeps(s2, orders.monitors, Monitor, Scout, 1, Average(Mappings(segs)) > 0.7);
      forall i | 0 <= i < |vs|
        ensures r[i] == vs[i].(role := r[i].role) && Promotion(vs[i].role, r[i].role)
      {
        assert s1[i] == vs[i] || (vs[i].role == Scout && s1[i] == vs[i].(role := Worker));
        assert s2[i] == s1[i] || (s1[i].role == Worker && s2[i] == s1[i].(role := Support));
      }
    }
  }

  /** The first stage moves up to two Scouts to Worker. */
  lemma ScoutStage(vs: seq<AgentView>, order: seq<nat>, fire: bool)
    requires IsOrder(order, |vs|)
    ensures var t0 := TallyOf(Roles(vs));
            var t1 := TallyOf(Roles(SwitchStage(vs, order, Scout, Worker, 2, fire)));
            && t1.support == t0.support && t1.monitor == t0.monitor
            && t0.scout - 2 <= t1.scout <= t0.scout && t1.worker == t0.worker + (t0.scout - t1.scout)
  {
    StageCounts(vs, order, Scout, Worker, 2, fire);
  }

  /** The second stage moves up to one Worker to Support. */
  lemma WorkerStage(vs: seq<AgentView>, order: seq<nat>, fire: bool)
    requires IsOrder(order, |vs|)
    ensures var t0 := TallyOf(Roles(vs));
            var t1 := TallyOf(Roles(SwitchStage(vs, order, Worker, Support, 1, fire)));
            && t1.scout == t0.scout && t1.monitor == t0.monitor
            && t0.worker - 1 <= t1.worker <= t0.worker && t1.support == t0.support + (t0.worker - t1.worker)
  {
    StageCounts(vs, order, Worker, Support, 1, fire);
  }

  /** The third stage moves up to one Monitor to Scout. */
  lemma MonitorStage(vs: seq<AgentView>, order: seq<nat>, fire: bool)
    requires IsOrder(order, |vs|)
    ensures var t0 := TallyOf(Roles(vs));
            var t1 := TallyOf(Roles(SwitchStage(vs, order, Monitor, Scout, 1, fire)));
            && t1.worker == t0.worker && t1.support == t0.support
            && t0.monitor - 1 <= t1.monitor <= t0.monitor && t1.scout == t0.scout + (t0.monitor - t1.monitor)
  {
    StageCounts(vs, order, Monitor, Scout, 1, fire);
  }

  /** Per switching frame at most two Scouts become Workers, one Worker a
      Support and one Monitor a Scout, and the population is unchanged. */
  lemma RoleSwitchTally(vs: seq<AgentView>, segs: seq<SegmentView>, orders: Orders, roleSwitch: bool, fps: nat, frameIdx: nat)
    requires fps > 0 && |segs| > 0 && OrdersFor(orders, |vs|)
    ensures var before := TallyOf(Roles(vs));
            var after := TallyOf(Roles(RoleSwitch(vs, segs, orders, roleSwitch, fps, frameIdx)));
            && before.support <= after.support <= before.support + 1
            && before.monitor - 1 <= after.monitor <= before.monitor
            && before.worker - 1 <= after.worker <= before.worker + 2
            && before.scout - 2 <= after.scout <= before.scout + 1
            && TallyTotal(after) == TallyTotal(before)
  {
    if SwitchFires(roleSwitch, fps, frameIdx) {
      var f1, f2, f3 := Average(Beacons(segs)) > 0.25, Average(StrainNorms(segs)) > 0.35, Average(Mappings(segs)) > 0.7;
      var s1 := SwitchStage(vs, orders.scouts, Scout, Worker, 2, f1);
      var s2 := SwitchStage(s1, orders.workers, Worker, Support, 1, f2);
      ScoutStage(vs, orders.scouts, f1);
      WorkerStage(s1, orders.workers, f2);
      MonitorStage(s2, orders.monitors, f3);
    }
  }

  // ---------------------------------------------------------------- one tick

  /** `mode.lower()` compared with "rest" and "activity": any other string
      (`Other`) takes neither the rest branch nor the activity branch. */
  datatype Mode = Rest | Activity | Other

  /** The run parameters the tick reads. */
  datatype Settings = Settings(swarmSize: nat, flow: real, noise: real, beaconStrength: real,
                               mode: Mode, roleSwitch: bool, fps: nat)

  /** The random draws one agent consumes in a tick: the speed noise, the
      branch/turn decision and the two draws of the weighted next-segment pick. */
  datatype AgentDraw = AgentDraw(noise: real, turn: real, pick: real, fallback: real)

  predicate DrawOk(d: AgentDraw) {
    IsDraw(d.noise) && IsDraw(d.turn) && IsDraw(d.pick) && IsDraw(d.fallback)
  }

  predicate DrawsOk(ds: seq<AgentDraw>, n: nat) {
    |ds| == n && forall k :: 0 <= k < n ==> DrawOk(ds[k])
  }

  /** The per-segment layout fixed at construction: ids are positions, lengths
      are positive and children and parents are valid positions. */
  predicate Shaped(vs: seq<SegmentView>) {
    && |vs| == SegmentCount
    && forall k :: 0 <= k < |vs| ==>
         && vs[k].segId == k && vs[k].length > 0.0 && ChildrenIn(vs[k], |vs|)
         && (vs[k].parent.Some? ==> vs[k].parent.value < |vs|)
  }

  /** Two segment lists with the same ids, links and lengths. */
  predicate SameShape(a: seq<SegmentView>, b: seq<SegmentView>) {
    && |a| == |b|
    && forall k :: 0 <= k < |a| ==>
         && a[k].segId == b[k].segId && a[k].children == b[k].children && a[k].parent == b[k].parent
         && a[k].length == b[k].length
  }

  /** `b` has the layout of `a`, no higher blockage and no lower mapping. */
  predicate NoWorse(a: seq<SegmentView>, b: seq<SegmentView>) {
    && SameShape(a, b)
    && forall k :: 0 <= k < |a| ==> b[k].blockage <= a[k].blockage && a[k].mapping <= b[k].mapping
  }

  lemma NoWorseRefl(a: seq<SegmentView>)
    ensures NoWorse(a, a)
  {
  }

  lemma NoWorseTrans(a: seq<SegmentView>, b: seq<SegmentView>, c: seq<SegmentView>)
    requires NoWorse(a, b) && NoWorse(b, c)
    ensures NoWorse(a, c)
  {
  }

  /** The layout predicates depend only on ids, links and lengths. */
  lemma SameShapeKeeps(a: seq<SegmentView>, b: seq<SegmentView>)
    requires SameShape(a, b)
    ensures Shaped(a) ==> Shaped(b)
    ensures IsTree(a) ==> IsTree(b)
  {
    if Shaped(a) {
      forall k | 0 <= k < |b|
        ensures ChildrenIn(b[k], |b|)
      {
        assert a[k].children == b[k].children;
      }
    }
    if IsTree(a) {
      SameShapeKeepsTree(a, b);
    }
  }

  lemma SameShapeKeepsTree(a: seq<SegmentView>, b: seq<SegmentView>)
    requires SameShape(a, b) && IsTree(a)
    ensures IsTree(b)
  {
    forall k, c | 0 <= k < |b| && c in b[k].children
      ensures LinksBack(b, k, c)
    {
      assert c in a[k].children && LinksBack(a, k, c);
    }
    forall c | 0 < c < |b|
      ensures HasListingParent(b, c)
    {
      assert HasListingParent(a, c);
      assert a[a[c].parent.value].children == b[b[c].parent.value].children;
    }
  }

  predicate AgentOk(a: AgentView, n: nat) {
    a.segmentId < n && 0.0 <= a.t <= 1.0 && (a.direction == 1 || a.direction == -1)
  }

  predicate AllInRange(vs: seq<SegmentView>) {
    forall k :: 0 <= k < |vs| ==> SegmentInRange(vs[k])
  }

  predicate AgentsOk(views: seq<AgentView>, n: nat) {
    forall i :: 0 <= i < |views| ==> AgentOk(views[i], n)
  }

  /** Beacons, scaffolds and pressure spikes fade every frame; at rest an
      affected segment grows slightly more inflamed and pooled. */
  function Decayed(v: SegmentView, mode: Mode): SegmentView {
    var d := v.(beacon := v.beacon * 0.92, scaffold := v.scaffold * 0.95, pressureSpike := v.pressureSpike * 0.93);
    if mode == Rest && v.affected then
      d.(inflammation := Clamp(d.inflammation + 0.0004, 0.0, 1.0), pooling := Clamp(d.pooling + 0.00025, 0.0, 1.0))
    else d
  }

  function DecayAll(vs: seq<SegmentView>, mode: Mode): (r: seq<SegmentView>)
    ensures |r| == |vs|
  {
    seq(|vs|, k requires 0 <= k < |vs| => Decayed(vs[k], mode))
  }

  /** Decay keeps every field in range and leaves blockage, mapping and the
      layout as they were. */
  lemma DecayedFacts(v: SegmentView, mode: Mode)
    requires SegmentInRange(v)
    ensures var d := Decayed(v, mode);
            && SegmentInRange(d) && d.blockage == v.blockage && d.mapping == v.mapping
            && d.segId == v.segId && d.children == v.children && d.parent == v.parent
            && d.length == v.length && d.affected == v.affected
  {
    ScaleMonotone(0.0, v.beacon, 0.92);
    ScaleMonotone(v.beacon, 1.0, 0.92);
    ScaleMonotone(0.0, v.scaffold, 0.95);
    ScaleMonotone(v.scaffold, 1.0, 0.95);
    ScaleMonotone(0.0, v.pressureSpike, 0.93);
    ScaleMonotone(v.pressureSpike, 1.0, 0.93);
  }

  /** The segment that receives the activity-mode pressure spike. */
  const SpikeSegment: nat := 4

  /** In activity mode, between 4 and 7 seconds into the cycle, segment 4's
      pressure spike rises by 0.06. */
  function Spiked(vs: seq<SegmentView>, mode: Mode, cycleTime: real): (r: seq<SegmentView>)
    requires |vs| > SpikeSegment
    ensures |r| == |vs|
  {
    if mode == Activity && 4.0 <= cycleTime <= 7.0 then
      vs[SpikeSegment := vs[SpikeSegment].(pressureSpike := Clamp(vs[SpikeSegment].pressureSpike + 0.06, 0.0, 1.0))]
    else vs
  }

  function WithFields(v: SegmentView): SegmentView {
    v.(fields := Some(FieldsFor(v.blockage, v.inflammation, v.pooling, v.pressureSpike, v.scaffold)))
  }

  function FieldsAll(vs: seq<SegmentView>): (r: seq<SegmentView>)
    ensures |r| == |vs|
  {
    seq(|vs|, k requires 0 <= k < |vs| => WithFields(vs[k]))
  }

  /** The segments once decay, the spike and compute_fields have run. */
  function Prepared(segs: seq<SegmentView>, st: Settings, cycle: real): (r: seq<SegmentView>)
    requires |segs| == SegmentCount
    ensures |r| == |segs|
  {
    FieldsAll(Spiked(DecayAll(segs, st.mode), st.mode, cycle))
  }

  /** The decay over all segments keeps them in range and no worse. */
  lemma DecayAllFacts(segs: seq<SegmentView>, mode: Mode)
    requires AllInRange(segs)
    ensures var d := DecayAll(segs, mode);
            AllInRange(d) && NoWorse(segs, d)
  {
    var d := DecayAll(segs, mode);
    forall j | 0 <= j < |segs|
      ensures SegmentInRange(d[j]) && d[j].blockage == segs[j].blockage && d[j].mapping == segs[j].mapping
    {
      DecayedFacts(segs[j], mode);
    }
  }

  /** The spike keeps the segments in range and no worse. */
  lemma SpikedFacts(vs: seq<SegmentView>, mode: Mode, cycle: real)
    requires |vs| > SpikeSegment && AllInRange(vs)
    ensures var r := Spiked(vs, mode, cycle);
            AllInRange(r) && NoWorse(vs, r)
  {
  }

  /** compute_fields over all segments keeps them in range and no worse, and
      leaves every segment with readings. */
  lemma FieldsAllFacts(vs: seq<SegmentView>)
    requires AllInRange(vs)
    ensures var r := FieldsAll(vs);
            AllInRange(r) && NoWorse(vs, r) && (forall j :: 0 <= j < |vs| ==> r[j].fields.Some?)
  {
  }

  /** Preparing the segments keeps them in range with their layout, blockage
      and mapping, and leaves every segment with fresh readings. */
  lemma PreparedFacts(segs: seq<SegmentView>, st: Settings, cycle: real)
    requires Shaped(segs) && AllInRange(segs)
    ensures var r := Prepared(segs, st, cycle);
            && Shaped(r) && AllInRange(r) && NoWorse(segs, r)
            && (forall j :: 0 <= j < |segs| ==> r[j].fields.Some?)
  {
    var d := DecayAll(segs, st.mode);
    var p := Spiked(d, st.mode, cycle);
    var r := FieldsAll(p);
    DecayAllFacts(segs, st.mode);
    SpikedFacts(d, st.mode, cycle);
    FieldsAllFacts(p);
    NoWorseTrans(segs, d, p);
    NoWorseTrans(segs, p, r);
    SameShapeKeeps(segs, r);
  }

  /** What one agent does to the segment it is on: a Scout on an abnormal
      segment strengthens its beacon, a Monitor maps it, and in activity mode a
      Support deploys scaffold where strain or spike is high. */
  function Sensed(a: AgentView, v: SegmentView, st: Settings): SegmentView {
    v.(beacon := SensedBeacon(a, v, st), mapping := SensedMapping(a, v), scaffold := SensedScaffold(a, v, st))
  }

  function SensedBeacon(a: AgentView, v: SegmentView, st: Settings): real {
    var signal := AbnormalOf(v);
    if a.role == Scout && signal > 0.55 then Clamp(v.beacon + st.beaconStrength * (0.03 + 0.05 * signal), 0.0, 1.0)
    else v.beacon
  }

  function SensedMapping(a: AgentView, v: SegmentView): real {
    if a.role == Monitor then Clamp(v.mapping + 0.003, 0.0, 1.0) else v.mapping
  }

  function SensedScaffold(a: AgentView, v: SegmentView, st: Settings): real {
    if a.role == Support && st.mode == Activity && (StrainNormOf(v) > 0.6 || v.pressureSpike > 0.4) then
      Clamp(v.scaffold + 0.04, 0.0, 1.0)
    else v.scaffold
  }

  /** Sensing keeps a segment in range, never changes its blockage or layout,
      and never lowers its mapping. */
  lemma SensedFacts(a: AgentView, v: SegmentView, st: Settings)
    requires SegmentInRange(v)
    ensures var s := Sensed(a, v, st);
            && SegmentInRange(s) && s.blockage == v.blockage && v.mapping <= s.mapping
            && s.children == v.children && s.parent == v.parent && s.length == v.length
            && s.segId == v.segId && s.affected == v.affected
  {
    ClampUnitStep(v.mapping, 0.003);
  }

  /** A Worker counts as active on a beaconed or blocked segment. */
  predicate WorkerActs(a: AgentView, v: SegmentView) {
    a.role == Worker && (v.beacon > 0.3 || v.blockage > 0.4)
  }

  function BaseSpeed(role: Role, v: SegmentView, flow: real): real {
    if role == Worker && (v.beacon > 0.4 || v.blockage > 0.5) then flow * 0.45
    else if role == Support && StrainNormOf(v) > 0.5 then flow * 0.35
    else if role == Monitor then flow * 0.8
    else flow
  }

  /** The agent's speed: the role's base speed plus noise, never below 0.05. */
  function Speed(role: Role, v: SegmentView, st: Settings, u: real): (s: real)
    ensures s >= 0.05
  {
    Max(0.05, BaseSpeed(role, v, st.flow) + Uniform(-st.noise, st.noise, u))
  }

  /** Agent movement along a segment: a Monitor walks in its direction, at the
      far end branching on (or bouncing back), at the near end climbing to the
      parent (or bouncing forward); every other role walks forward and moves on
      to the next segment at the end. Only the position and the direction
      change. */
  function Moved(a: AgentView, v: SegmentView, vs: seq<SegmentView>, step: real, d: AgentDraw): AgentView
    requires ChildrenIn(v, |vs|) && |vs| > 0 && DrawOk(d)
  {
    var m := Motion(a, v, vs, step, d);
    a.(segmentId := m.0, t := m.1, direction := m.2)
  }

  /** The segment, position and direction after one move. */
  function Motion(a: AgentView, v: SegmentView, vs: seq<SegmentView>, step: real, d: AgentDraw): (nat, real, int)
    requires ChildrenIn(v, |vs|) && |vs| > 0 && DrawOk(d)
  {
    if a.role == Monitor then
      var t := a.t + step * a.direction as real;
      if t > 1.0 then
        if |v.children| > 0 && d.turn > 0.4 then (NextSegment(v, vs, a.role, d.pick, d.fallback), 0.0, a.direction)
        else (a.segmentId, 1.0, -1)
      else if t < 0.0 then
        if v.parent.Some? && d.turn > 0.3 then (v.parent.value, 1.0, a.direction)
        else (a.segmentId, 0.0, 1)
      else (a.segmentId, t, a.direction)
    else
      var t := a.t + step;
      if t >= 1.0 then (NextSegment(v, vs, a.role, d.pick, d.fallback), 0.0, a.direction)
      else (a.segmentId, t, a.direction)
  }

  lemma PositiveStep(speed: real, length: real)
    requires speed > 0.0 && length > 0.0
    ensures speed / length > 0.0
  {
  }

  /** Movement keeps the agent on a valid segment with `t` in [0,1] and a
      direction of ±1, and never changes its role. */
  lemma MovedFacts(a: AgentView, v: SegmentView, vs: seq<SegmentView>, step: real, d: AgentDraw)
    requires ChildrenIn(v, |vs|) && |vs| > 0 && DrawOk(d) && step > 0.0
    requires AgentOk(a, |vs|) && (v.parent.Some? ==> v.parent.value < |vs|)
    ensures AgentOk(Moved(a, v, vs, step, d), |vs|) && Moved(a, v, vs, step, d).role == a.role
  {
  }

  /** The state threaded through the agent loop: segments, agents and the
      per-segment count of active Workers. */
  datatype Walk = Walk(segs: seq<SegmentView>, agents: seq<AgentView>, activity: seq<nat>)

  predicate WalkOk(w: Walk) {
    Shaped(w.segs) && |w.activity| == |w.segs| && AllInRange(w.segs) && AgentsOk(w.agents, |w.segs|)
  }

  /** The first half of agent `k`'s turn: the agent acts on its segment, and
      an active Worker is counted there. The walk stays well-formed, only that
      segment changes, and it is no worse. */
  function SenseStep(w: Walk, k: nat, st: Settings): (r: Walk)
    requires WalkOk(w) && k < |w.agents|
    ensures WalkOk(r) && r.agents == w.agents && NoWorse(w.segs, r.segs)
  {
    var a := w.agents[k];
    var id := a.segmentId;
    var v := Sensed(a, w.segs[id], st);
    SensedFacts(a, w.segs[id], st);
    var segs := w.segs[id := v];
    assert SameShape(w.segs, segs);
    SameShapeKeeps(w.segs, segs);
    Walk(segs, w.agents, if WorkerActs(a, v) then w.activity[id := w.activity[id] + 1] else w.activity)
  }

  /** The second half of agent `k`'s turn: the agent moves along its segment
      at its speed over the segment's length. The walk stays well-formed and
      only the agent's position and direction change. */
  function MoveStep(w: Walk, k: nat, st: Settings, d: AgentDraw): (r: Walk)
    requires WalkOk(w) && k < |w.agents| && DrawOk(d)
    ensures WalkOk(r) && r.segs == w.segs && r.activity == w.activity && Roles(r.agents) == Roles(w.agents)
  {
    var a := w.agents[k];
    var v := w.segs[a.segmentId];
    var step := Speed(a.role, v, st, d.noise) / v.length;
    PositiveStep(Speed(a.role, v, st, d.noise), v.length);
    MovedFacts(a, v, w.segs, step, d);
    var agents := w.agents[k := Moved(a, v, w.segs, step, d)];
    assert Roles(agents) == Roles(w.agents);
    w.(agents := agents)
  }

  /** One iteration of the agent loop for agent `k`: it keeps the walk
      well-formed with its population, makes no segment worse and changes no
      role. */
  function AgentStep(w: Walk, k: nat, st: Settings, d: AgentDraw): (r: Walk)
    requires WalkOk(w) && k < |w.agents| && DrawOk(d)
    ensures WalkOk(r) && |r.agents| == |w.agents|
    ensures NoWorse(w.segs, r.segs) && Roles(r.agents) == Roles(w.agents)
  {
    MoveStep(SenseStep(w, k, st), k, st, d)
  }

  /** The walk after the first `k` agents have taken their turn. */
  function AgentsUpTo(w: Walk, st: Settings, draws: seq<AgentDraw>, k: nat): (r: Walk)
    requires WalkOk(w) && DrawsOk(draws, |w.agents|) && k <= |w.agents|
    ensures WalkOk(r) && |r.agents| == |w.agents|
    ensures NoWorse(w.segs, r.segs) && Roles(r.agents) == Roles(w.agents)
  {
    if k == 0 then
      NoWorseRefl(w.segs);
      w
    else
      var prev := AgentsUpTo(w, st, draws, k - 1);
      var r := AgentStep(prev, k - 1, st, draws[k - 1]);
      NoWorseTrans(w.segs, prev.segs, r.segs);
      r
  }

  /** Active Workers wear the blockage down in proportion to their number and
      the beacon; a deployed scaffold lowers the pressure spike. */
  function Reduced(v: SegmentView, active: nat): SegmentView {
    var r := v.(blockage := Clamp(v.blockage - 0.00005 * active as real * (1.0 + v.beacon), 0.0, 1.0));
    if r.scaffold > 0.01 then r.(pressureSpike := Clamp(r.pressureSpike - 0.04 * r.scaffold, 0.0, 1.0)) else r
  }

  function ReduceAll(vs: seq<SegmentView>, activity: seq<nat>): (r: seq<SegmentView>)
    requires |activity| == |vs|
    ensures |r| == |vs|
  {
    seq(|vs|, k requires 0 <= k < |vs| => Reduced(vs[k], activity[k]))
  }

  /** Blockage reduction keeps a segment in range and its layout and mapping,
      and never raises its blockage. */
  lemma ReducedFacts(v: SegmentView, active: nat)
    requires SegmentInRange(v)
    ensures var r := Reduced(v, active);
            && SegmentInRange(r) && r.blockage <= v.blockage && r.mapping == v.mapping
            && r.children == v.children && r.parent == v.parent && r.length == v.length
            && r.segId == v.segId && r.affected == v.affected
  {
    ScaleMonotone(0.0, active as real, 0.00005 * (1.0 + v.beacon));
    assert 0.00005 * active as real * (1.0 + v.beacon) >= 0.0;
    ClampUnitStep(v.blockage, -(0.00005 * active as real * (1.0 + v.beacon)));
  }

  lemma ReduceAllFacts(vs: seq<SegmentView>, activity: seq<nat>)
    requires |activity| == |vs| && Shaped(vs) && AllInRange(vs)
    ensures Shaped(ReduceAll(vs, activity)) && AllInRange(ReduceAll(vs, activity))
    ensures NoWorse(vs, ReduceAll(vs, activity))
  {
    var r := ReduceAll(vs, activity);
    forall j | 0 <= j < |r|
      ensures SegmentInRange(r[j]) && r[j].blockage <= vs[j].blockage && vs[j].mapping <= r[j].mapping
    {
      ReducedFacts(vs[j], activity[j]);
    }
    assert SameShape(vs, r);
    SameShapeKeeps(vs, r);
  }

  function Zeros(n: nat): (z: seq<nat>)
    ensures |z| == n
  {
    seq(n, _ => 0)
  }

  /** The simulation state a tick works on. */
  datatype SimView = SimView(segs: seq<SegmentView>, agents: seq<AgentView>, lastResetTime: real)

  /** The state invariant: a well-formed tree of in-range segments with agents
      on valid segments at valid positions. */
  predicate SimOk(sv: SimView) {
    Shaped(sv.segs) && IsTree(sv.segs) && AllInRange(sv.segs) && AgentsOk(sv.agents, |sv.segs|)
  }

  /** `frame_idx / fps - last_reset_time`. */
  function CycleTime(frameIdx: nat, fps: nat, lastResetTime: real): real
    requires fps > 0
  {
    frameIdx as real / fps as real - lastResetTime
  }

  /** The walk the agent loop starts from: prepared segments, the agents after
      role switching, and no Worker activity yet. */
  function StartWalk(sv: SimView, st: Settings, frameIdx: nat, orders: Orders): (w: Walk)
    requires SimOk(sv) && st.fps > 0 && OrdersFor(orders, |sv.agents|)
    ensures |w.agents| == |sv.agents|
  {
    var segs := Prepared(sv.segs, st, CycleTime(frameIdx, st.fps, sv.lastResetTime));
    Walk(segs, RoleSwitch(sv.agents, segs, orders, st.roleSwitch, st.fps, frameIdx), Zeros(|segs|))
  }

  lemma StartWalkOk(sv: SimView, st: Settings, frameIdx: nat, orders: Orders)
    requires SimOk(sv) && st.fps > 0 && OrdersFor(orders, |sv.agents|)
    ensures WalkOk(StartWalk(sv, st, frameIdx, orders))
    ensures NoWorse(sv.segs, StartWalk(sv, st, frameIdx, orders).segs)
  {
    var w := StartWalk(sv, st, frameIdx, orders);
    PreparedFacts(sv.segs, st, CycleTime(frameIdx, st.fps, sv.lastResetTime));
    RoleSwitchKeeps(sv.agents, w.segs, orders, st.roleSwitch, st.fps, frameIdx);
    assert AgentsOk(w.agents, |w.segs|) by {
      forall i | 0 <= i < |w.agents|
        ensures AgentOk(w.agents[i], |w.segs|)
      {
        assert w.agents[i] == sv.agents[i].(role := w.agents[i].role);
      }
    }
  }

  /** The walk once every agent has taken its turn. */
  function TickWalk(sv: SimView, st: Settings, frameIdx: nat, orders: Orders, draws: seq<AgentDraw>): (w: Walk)
    requires SimOk(sv) && st.fps > 0 && OrdersFor(orders, |sv.agents|) && DrawsOk(draws, |sv.agents|)
    ensures WalkOk(w) && |w.agents| == |sv.agents|
  {
    StartWalkOk(sv, st, frameIdx, orders);
    var w0 := StartWalk(sv, st, frameIdx, orders);
    AgentsUpTo(w0, st, draws, |w0.agents|)
  }

  /** One tick of the simulation loop (the frame body after any reset). */
  function Tick(sv: SimView, st: Settings, frameIdx: nat, orders: Orders, draws: seq<AgentDraw>): SimView
    requires SimOk(sv) && st.fps > 0 && OrdersFor(orders, |sv.agents|) && DrawsOk(draws, |sv.agents|)
  {
    var w := TickWalk(sv, st, frameIdx, orders, draws);
    sv.(segs := ReduceAll(w.segs, w.activity), agents := w.agents)
  }

  /** What a tick promises: the state invariant holds again (every health field
      in [0,1], every agent on a valid segment with `t` in [0,1], the tree
      intact), the population is unchanged, no blockage rises and no mapping
      falls. */
  lemma TickFacts(sv: SimView, st: Settings, frameIdx: nat, orders: Orders, draws: seq<AgentDraw>)
    requires SimOk(sv) && st.fps > 0 && OrdersFor(orders, |sv.agents|) && DrawsOk(draws, |sv.agents|)
    ensures var r := Tick(sv, st, frameIdx, orders, draws);
            && SimOk(r) && |r.agents| == |sv.agents| && NoWorse(sv.segs, r.segs)
            && r.lastResetTime == sv.lastResetTime
  {
    var w0 := StartWalk(sv, st, frameIdx, orders);
    StartWalkOk(sv, st, frameIdx, orders);
    var w := TickWalk(sv, st, frameIdx, orders, draws);
    NoWorseTrans(sv.segs, w0.segs, w.segs);
    ReduceAllFacts(w.segs, w.activity);
    var r := ReduceAll(w.segs, w.activity);
    NoWorseTrans(sv.segs, w.segs, r);
    SameShapeKeeps(sv.segs, r);
  }

  // ---------------------------------------------------------------- resets

  /** The frames at which the simulation resets: frame 0, plus 10 seconds in
      for a default run of at least 12 seconds, or the requested reset time;
      only frames inside the run count. */
  function ResetFrames(durationSec: nat, fps: nat, resetAt: Option<real>): set<int> {
    var numFrames := durationSec * fps;
    var extra: set<int> :=
      if resetAt.None? && durationSec >= 12 then {10 * fps}
      else if resetAt.Some? && resetAt.value > 0.0 then {(resetAt.value * fps as real).Floor}
      else {};
    set f | f in {0} + extra && 0 <= f < numFrames
  }

  /** Frame 0 is a reset frame of any non-empty run, every reset frame lies in
      the run, and a default run of 12 seconds or more also resets at 10 s. */
  lemma ResetFramesFacts(durationSec: nat, fps: nat, resetAt: Option<real>)
    ensures var r := ResetFrames(durationSec, fps, resetAt);
            && (0 in r <==> durationSec * fps > 0)
            && (forall f :: f in r ==> 0 <= f < durationSec * fps)
            && (resetAt.None? && durationSec >= 12 && fps > 0 ==> 10 * fps in r)
            && (resetAt.None? && durationSec < 12 ==> r <= {0})
  {
    if resetAt.None? && durationSec >= 12 && fps > 0 {
      assert 10 * fps < durationSec * fps;
    }
  }

  function RestoredAll(vs: seq<SegmentView>): (r: seq<SegmentView>)
    requires forall k :: 0 <= k < |vs| ==> vs[k].initialState.Some?
    ensures |r| == |vs|
  {
    seq(|vs|, k requires 0 <= k < |vs| => Restored(vs[k]))
  }

  /** The start of a frame: on a reset frame other than 0 the cycle clock
      restarts, the segments are reset and a fresh swarm is created. */
  function Begin(sv: SimView, st: Settings, frameIdx: nat, resetFrames: set<int>,
                 roles: seq<Role>, dirDraws: seq<real>, tDraws: seq<real>): SimView
    requires st.fps > 0 && SimOk(sv)
    requires Shuffled(roles, st.swarmSize) && DrawsFor(dirDraws, st.swarmSize) && DrawsFor(tDraws, st.swarmSize)
  {
    if frameIdx as int in resetFrames && frameIdx != 0 then
      SimView(RestoredAll(sv.segs), Recruits(roles, dirDraws, tDraws), frameIdx as real / st.fps as real)
    else sv
  }

  /** The start of a frame keeps the state invariant; on a reset frame the
      swarm has exactly `swarm_size` agents again. */
  lemma BeginFacts(sv: SimView, st: Settings, frameIdx: nat, resetFrames: set<int>,
                   roles: seq<Role>, dirDraws: seq<real>, tDraws: seq<real>)
    requires st.fps > 0 && SimOk(sv)
    requires Shuffled(roles, st.swarmSize) && DrawsFor(dirDraws, st.swarmSize) && DrawsFor(tDraws, st.swarmSize)
    ensures var r := Begin(sv, st, frameIdx, resetFrames, roles, dirDraws, tDraws);
            && SimOk(r) && SameShape(sv.segs, r.segs)
            && (frameIdx as int in resetFrames && frameIdx != 0 ==> |r.agents| == st.swarmSize)
            && (frameIdx as int !in resetFrames || frameIdx == 0 ==> r == sv)
  {
    if frameIdx as int in resetFrames && frameIdx != 0 {
      var r := RestoredAll(sv.segs);
      forall k | 0 <= k < |sv.segs|
        ensures SegmentInRange(r[k])
      {
        ResetFacts(sv.segs[k]);
      }
      RecruitsFacts(st.swarmSize, roles, dirDraws, tDraws);
      assert SameShape(sv.segs, r);
      SameShapeKeeps(sv.segs, r);
    }
  }

  /** The state after set-up: the built tree with its pathology and a fresh swarm. */
  function InitialState(lengths: seq<real>, roles: seq<Role>, dirDraws: seq<real>, tDraws: seq<real>): SimView
    requires |lengths| == SegmentCount && |dirDraws| == |roles| && |tDraws| == |roles|
  {
    SimView(PathologyAll(BuiltNetwork(lengths)), Recruits(roles, dirDraws, tDraws), 0.0)
  }

  /** The set-up establishes the state invariant with `swarm_size` agents. */
  lemma InitialStateOk(n: nat, lengths: seq<real>, roles: seq<Role>, dirDraws: seq<real>, tDraws: seq<real>)
    requires NetworkLengths(lengths) && Shuffled(roles, n) && DrawsFor(dirDraws, n) && DrawsFor(tDraws, n)
    ensures SimOk(InitialState(lengths, roles, dirDraws, tDraws))
    ensures |InitialState(lengths, roles, dirDraws, tDraws).agents| == n
  {
    var built := BuiltNetwork(lengths);
    var vs := InitialState(lengths, roles, dirDraws, tDraws).segs;
    BuiltNetworkIsTree(lengths);
    BuiltNetworkShape(lengths);
    NetworkLengthsPositive(lengths);
    RecruitsFacts(n, roles, dirDraws, tDraws);
    forall k | 0 <= k < SegmentCount
      ensures SegmentInRange(vs[k]) && vs[k].length > 0.0
      ensures vs[k].segId == built[k].segId && vs[k].children == built[k].children
      ensures vs[k].parent == built[k].parent && vs[k].length == built[k].length
    {
      PathologyFacts(k);
    }
    assert Shaped(built) by {
      forall k | 0 <= k < SegmentCount
        ensures ChildrenIn(built[k], SegmentCount)
      {
      }
    }
    SameShapeKeeps(built, vs);
  }

  // ---------------------------------------------------------------- per-object steps

  /** The decay of one segment at the top of the frame body. */
  method DecaySegment(seg: VeinSegment, mode: Mode)
    modifies seg
    ensures seg.View() == Decayed(old(seg.View()), mode)
  {
    seg.beacon := seg.beacon * 0.92;
    seg.scaffold := seg.scaffold * 0.95;
    seg.pressureSpike := seg.pressureSpike * 0.93;
    if mode == Rest && seg.affected {
      seg.inflammation := Clamp(seg.inflammation + 0.0004, 0.0, 1.0);
      seg.pooling := Clamp(seg.pooling + 0.00025, 0.0, 1.0);
    }
  }

  /** What agent `a` does to the segment it is on. */
  method SenseSegment(seg: VeinSegment, a: AgentView, st: Settings, ghost agents: seq<SwarmAgent>)
    modifies seg
    ensures seg.View() == Sensed(a, old(seg.View()), st)
    ensures AgentViewsOf(agents) == old(AgentViewsOf(agents))
  {
    var signal := AbnormalOf(seg.View());
    if a.role == Scout {
      if signal > 0.55 {
        seg.beacon := Clamp(seg.beacon + st.beaconStrength * (0.03 + 0.05 * signal), 0.0, 1.0);
      }
    }
    if a.role == Monitor {
      seg.mapping := Clamp(seg.mapping + 0.003, 0.0, 1.0);
    }
    if a.role == Support && st.mode == Activity {
      if StrainNormOf(seg.View()) > 0.6 || seg.pressureSpike > 0.4 {
        seg.scaffold := Clamp(seg.scaffold + 0.04, 0.0, 1.0);
      }
    }
  }

  /** The movement of one agent by `step` along the segment `v`. */
  method MoveAgent(agent: SwarmAgent, v: SegmentView, vs: seq<SegmentView>, step: real, d: AgentDraw, ghost segments: seq<VeinSegment>)
    requires ChildrenIn(v, |vs|) && |vs| > 0 && DrawOk(d)
    modifies agent
    ensures agent.View() == Moved(old(agent.View()), v, vs, step, d)
    ensures SegViewsOf(segments) == old(SegViewsOf(segments))
  {
    if agent.role == Monitor {
      agent.t := agent.t + step * agent.direction as real;
      if agent.t > 1.0 {
        if |v.children| > 0 && d.turn > 0.4 {
          var next := ChooseNextSegment(v, vs, agent.role, d.pick, d.fallback);
          agent.segmentId := next;
          agent.t := 0.0;
        } else {
          agent.t := 1.0;
          agent.direction := -1;
        }
      } else if agent.t < 0.0 {
        if v.parent.Some? && d.turn > 0.3 {
          agent.segmentId := v.parent.value;
          agent.t := 1.0;
        } else {
          agent.t := 0.0;
          agent.direction := 1;
        }
      }
    } else {
      agent.t := agent.t + step;
      if agent.t >= 1.0 {
        var next := ChooseNextSegment(v, vs, agent.role, d.pick, d.fallback);
        agent.segmentId := next;
        agent.t := 0.0;
      }
    }
  }

  /** Blockage reduction and spike relief on one segment. */
  method ReduceSegment(seg: VeinSegment, active: nat)
    modifies seg
    ensures seg.View() == Reduced(old(seg.View()), active)
  {
    var reduction := 0.00005 * active as real * (1.0 + seg.beacon);
    seg.blockage := Clamp(seg.blockage - reduction, 0.0, 1.0);
    if seg.scaffold > 0.01 {
      seg.pressureSpike := Clamp(seg.pressureSpike - 0.04 * seg.scaffold, 0.0, 1.0);
    }
  }

  /** One agent takes role `to`. */
  method SetRole(agents: seq<SwarmAgent>, i: nat, to: Role, ghost segments: seq<VeinSegment>)
    requires DistinctAgents(agents) && i < |agents|
    modifies agents[i]
    ensures AgentViewsOf(agents) == old(AgentViewsOf(agents))[i := old(agents[i].View()).(role := to)]
    ensures SegViewsOf(segments) == old(SegViewsOf(segments))
  {
    agents[i].role := to;
  }

  // ---------------------------------------------------------------- the phases of a frame

  /** The network and the swarm as the set-up leaves them. */
  method SetUp(n: nat, lengths: seq<real>, roles: seq<Role>, dirDraws: seq<real>, tDraws: seq<real>)
    returns (segs: seq<VeinSegment>, ags: seq<SwarmAgent>)
    requires NetworkLengths(lengths) && Shuffled(roles, n) && DrawsFor(dirDraws, n) && DrawsFor(tDraws, n)
    ensures DistinctSegments(segs) && DistinctAgents(ags)
    ensures forall k :: 0 <= k < |segs| ==> fresh(segs[k])
    ensures forall k :: 0 <= k < |ags| ==> fresh(ags[k])
    ensures SegViewsOf(segs) == InitialState(lengths, roles, dirDraws, tDraws).segs
    ensures AgentViewsOf(ags) == InitialState(lengths, roles, dirDraws, tDraws).agents
  {
    segs := BuildVeinNetwork(lengths);
    InitializePathology(segs);
    ghost var segViews := SegViewsOf(segs);
    ags := CreateAgents(n, roles, dirDraws, tDraws);
    assert SegViewsOf(segs) == segViews;
  }

  /** Fading of beacons, scaffolds and spikes, and slow worsening at rest. */
  method DecayPhase(segments: seq<VeinSegment>, mode: Mode, ghost vs: seq<SegmentView>, ghost agents: seq<SwarmAgent>)
    requires DistinctSegments(segments) && vs == SegViewsOf(segments)
    modifies segments
    ensures SegViewsOf(segments) == DecayAll(vs, mode)
    ensures AgentViewsOf(agents) == old(AgentViewsOf(agents))
  {
    var k := 0;
    while k < |segments|
      invariant k <= |segments|
      invariant AgentViewsOf(agents) == old(AgentViewsOf(agents))
      invariant forall j :: 0 <= j < k ==> segments[j].View() == Decayed(vs[j], mode)
      invariant forall j :: k <= j < |segments| ==> segments[j].View() == vs[j]
    {
      DecaySegment(segments[k], mode);
      k := k + 1;
    }
  }

  /** The activity-mode pressure spike on segment 4. */
  method SpikePhase(segments: seq<VeinSegment>, mode: Mode, cycle: real, ghost vs: seq<SegmentView>, ghost agents: seq<SwarmAgent>)
    requires DistinctSegments(segments) && vs == SegViewsOf(segments) && |segments| > SpikeSegment
    modifies segments[SpikeSegment]
    ensures SegViewsOf(segments) == Spiked(vs, mode, cycle)
    ensures AgentViewsOf(agents) == old(AgentViewsOf(agents))
  {
    if mode == Activity && 4.0 <= cycle <= 7.0 {
      var seg := segments[SpikeSegment];
      seg.pressureSpike := Clamp(seg.pressureSpike + 0.06, 0.0, 1.0);
      assert SegViewsOf(segments) == vs[SpikeSegment := seg.View()];
    }
  }

  /** compute_fields on every segment. */
  method FieldsPhase(segments: seq<VeinSegment>, ghost vs: seq<SegmentView>, ghost agents: seq<SwarmAgent>)
    requires DistinctSegments(segments) && vs == SegViewsOf(segments)
    modifies segments
    ensures SegViewsOf(segments) == FieldsAll(vs)
    ensures AgentViewsOf(agents) == old(AgentViewsOf(agents))
  {
    var k := 0;
    while k < |segments|
      invariant k <= |segments|
      invariant AgentViewsOf(agents) == old(AgentViewsOf(agents))
      invariant forall j :: 0 <= j < k ==> segments[j].View() == WithFields(vs[j])
      invariant forall j :: k <= j < |segments| ==> segments[j].View() == vs[j]
    {
      var _ := segments[k].ComputeFields();
      k := k + 1;
    }
  }

  /** Decay, the pressure spike and compute_fields. */
  method PreparePhase(segments: seq<VeinSegment>, st: Settings, cycle: real, ghost vs: seq<SegmentView>, ghost agents: seq<SwarmAgent>)
    requires DistinctSegments(segments) && vs == SegViewsOf(segments) && |segments| == SegmentCount
    modifies segments
    ensures SegViewsOf(segments) == Prepared(vs, st, cycle)
    ensures AgentViewsOf(agents) == old(AgentViewsOf(agents))
  {
    DecayPhase(segments, st.mode, vs, agents);
    SpikePhase(segments, st.mode, cycle, SegViewsOf(segments), agents);
    FieldsPhase(segments, SegViewsOf(segments), agents);
  }

  /** One relabelling: the first `k` agents of role `from` in the shuffled
      order take role `to`. */
  method SwitchRoles(agents: seq<SwarmAgent>, order: seq<nat>, from: Role, to: Role, k: nat, ghost vs: seq<AgentView>, ghost segments: seq<VeinSegment>)
    requires DistinctAgents(agents) && vs == AgentViewsOf(agents) && IsOrder(order, |agents|)
    modifies agents
    ensures AgentViewsOf(agents) == SwitchStage(vs, order, from, to, k, true)
    ensures SegViewsOf(segments) == old(SegViewsOf(segments))
  {
    var chosen := Pick(order, AgentViewsOf(agents), from, k);
    var m := 0;
    while m < |chosen|
      invariant m <= |chosen|
      invariant SegViewsOf(segments) == old(SegViewsOf(segments))
      invariant AgentViewsOf(agents) == Relabel(vs, chosen[..m], to)
    {
      RelabelSnoc(vs, chosen, m, to);
      SetRole(agents, chosen[m], to, segments);
      m := m + 1;
    }
    assert chosen[..m] == chosen;
  }

  /** update_role_switching. */
  method UpdateRoleSwitching(segments: seq<VeinSegment>, agents: seq<SwarmAgent>, st: Settings, orders: Orders, frameIdx: nat, ghost vs: seq<AgentView>)
    requires DistinctAgents(agents) && vs == AgentViewsOf(agents) && st.fps > 0 && |segments| > 0
    requires OrdersFor(orders, |agents|)
    modifies agents
    ensures AgentViewsOf(agents) == RoleSwitch(vs, old(SegViewsOf(segments)), orders, st.roleSwitch, st.fps, frameIdx)
    ensures SegViewsOf(segments) == old(SegViewsOf(segments))
  {
    if !st.roleSwitch || frameIdx % st.fps != 0 {
      return;
    }
    var segViews := SegViewsOf(segments);
    var avgBeacon := Average(Beacons(segViews));
    var avgStrain := Average(StrainNorms(segViews));
    var avgMapping := Average(Mappings(segViews));
    if avgBeacon > 0.25 {
      SwitchRoles(agents, orders.scouts, Scout, Worker, 2, AgentViewsOf(agents), segments);
    }
    if avgStrain > 0.35 {
      SwitchRoles(agents, orders.workers, Worker, Support, 1, AgentViewsOf(agents), segments);
    }
    if avgMapping > 0.7 {
      SwitchRoles(agents, orders.monitors, Monitor, Scout, 1, AgentViewsOf(agents), segments);
    }
  }

  /** The sensing half of one iteration of the agent loop. */
  method SenseTurn(segments: seq<VeinSegment>, agents: seq<SwarmAgent>, st: Settings, k: nat, activity: seq<nat>, ghost w: Walk)
    returns (act: seq<nat>)
    requires DistinctSegments(segments) && DistinctAgents(agents)
    requires w == Walk(SegViewsOf(segments), AgentViewsOf(agents), activity) && WalkOk(w) && k < |agents|
    modifies segments
    ensures Walk(SegViewsOf(segments), AgentViewsOf(agents), act) == SenseStep(w, k, st)
  {
    var agent := agents[k];
    var seg := segments[agent.segmentId];
    SenseSegment(seg, agent.View(), st, agents);
    act := activity;
    if agent.role == Worker {
      if seg.beacon > 0.3 || seg.blockage > 0.4 {
        act := act[seg.segId := act[seg.segId] + 1];
      }
    }
    assert SegViewsOf(segments) == w.segs[agent.segmentId := seg.View()];
  }

  /** The moving half of one iteration of the agent loop. */
  method MoveTurn(segments: seq<VeinSegment>, agents: seq<SwarmAgent>, st: Settings, k: nat, d: AgentDraw, ghost w: Walk)
    requires DistinctSegments(segments) && DistinctAgents(agents)
    requires w.segs == SegViewsOf(segments) && w.agents == AgentViewsOf(agents) && WalkOk(w)
    requires k < |agents| && DrawOk(d)
    modifies agents[k]
    ensures Walk(SegViewsOf(segments), AgentViewsOf(agents), w.activity) == MoveStep(w, k, st, d)
  {
    var agent := agents[k];
    var seg := segments[agent.segmentId];
    var baseSpeed := st.flow;
    if agent.role == Worker && (seg.beacon > 0.4 || seg.blockage > 0.5) {
      baseSpeed := baseSpeed * 0.45;
    }
    if agent.role == Support && StrainNormOf(seg.View()) > 0.5 {
      baseSpeed := baseSpeed * 0.35;
    }
    if agent.role == Monitor {
      baseSpeed := baseSpeed * 0.8;
    }
    var speed := Max(0.05, baseSpeed + Uniform(-st.noise, st.noise, d.noise));
    var step := speed / seg.length;
    MoveAgent(agent, seg.View(), SegViewsOf(segments), step, d, segments);
    assert AgentViewsOf(agents) == w.agents[k := agent.View()];
    assert SegViewsOf(segments) == w.segs;
  }

  /** What the agent loop knows after `k` turns: the objects hold the walk
      from `w` through the first `k` agents' turns. */
  ghost predicate Played(segments: seq<VeinSegment>, agents: seq<SwarmAgent>, st: Settings, draws: seq<AgentDraw>, k: nat, activity: seq<nat>, w: Walk)
    reads segments, agents
  {
    && DistinctSegments(segments) && DistinctAgents(agents)
    && WalkOk(w) && |w.agents| == |agents| && k <= |agents| && DrawsOk(draws, |agents|)
    && Walk(SegViewsOf(segments), AgentViewsOf(agents), activity) == AgentsUpTo(w, st, draws, k)
  }

  /** One iteration of the agent loop: agent `k` senses, then moves. */
  method AgentTurn(segments: seq<VeinSegment>, agents: seq<SwarmAgent>, st: Settings, draws: seq<AgentDraw>, k: nat, activity: seq<nat>, ghost w: Walk)
    returns (act: seq<nat>)
    requires Played(segments, agents, st, draws, k, activity, w) && k < |agents|
    modifies segments, agents
    ensures Played(segments, agents, st, draws, k + 1, act, w)
  {
    ghost var cur := AgentsUpTo(w, st, draws, k);
    act := SenseTurn(segments, agents, st, k, activity, cur);
    MoveTurn(segments, agents, st, k, draws[k], SenseStep(cur, k, st));
  }

  /** The agent loop, returning the per-segment count of active Workers. */
  method AgentPhase(segments: seq<VeinSegment>, agents: seq<SwarmAgent>, st: Settings, draws: seq<AgentDraw>, ghost w: Walk)
    returns (activity: seq<nat>)
    requires DistinctSegments(segments) && DistinctAgents(agents)
    requires w == Walk(SegViewsOf(segments), AgentViewsOf(agents), Zeros(|segments|)) && WalkOk(w)
    requires DrawsOk(draws, |agents|)
    modifies segments, agents
    ensures Walk(SegViewsOf(segments), AgentViewsOf(agents), activity) == AgentsUpTo(w, st, draws, |agents|)
  {
    activity := Zeros(|segments|);
    var k := 0;
    while k < |agents|
      invariant Played(segments, agents, st, draws, k, activity, w)
    {
      activity := AgentTurn(segments, agents, st, draws, k, activity, w);
      k := k + 1;
    }
  }

  /** Blockage reduction by active Workers and spike relief by scaffold. */
  method ReducePhase(segments: seq<VeinSegment>, activity: seq<nat>, ghost vs: seq<SegmentView>, ghost agents: seq<SwarmAgent>)
    requires DistinctSegments(segments) && vs == SegViewsOf(segments) && |activity| == |segments|
    requires forall j :: 0 <= j < |segments| ==> segments[j].segId == j
    modifies segments
    ensures SegViewsOf(segments) == ReduceAll(vs, activity)
    ensures AgentViewsOf(agents) == old(AgentViewsOf(agents))
  {
    var k := 0;
    while k < |segments|
      invariant k <= |segments|
      invariant AgentViewsOf(agents) == old(AgentViewsOf(agents))
      invariant forall j :: 0 <= j < k ==> segments[j].View() == Reduced(vs[j], activity[j])
      invariant forall j :: k <= j < |segments| ==> segments[j].View() == vs[j]
    {
      ReduceSegment(segments[k], activity[segments[k].segId]);
      k := k + 1;
    }
  }

  /** The start of a frame: on a reset frame other than 0 the cycle clock
      restarts, the segments are reset and a fresh swarm replaces the old one. */
  method BeginPhase(segments: seq<VeinSegment>, agents: seq<SwarmAgent>, st: Settings, lastResetTime: real,
                    frameIdx: nat, resetFrames: set<int>, roles: seq<Role>, dirDraws: seq<real>, tDraws: seq<real>,
                    ghost sv: SimView)
    returns (ags: seq<SwarmAgent>, resetTime: real)
    requires DistinctSegments(segments) && DistinctAgents(agents) && st.fps > 0 && SimOk(sv)
    requires sv == SimView(SegViewsOf(segments), AgentViewsOf(agents), lastResetTime)
    requires Shuffled(roles, st.swarmSize) && DrawsFor(dirDraws, st.swarmSize) && DrawsFor(tDraws, st.swarmSize)
    modifies segments
    ensures DistinctAgents(ags)
    ensures ags == agents || forall k :: 0 <= k < |ags| ==> fresh(ags[k])
    ensures SimView(SegViewsOf(segments), AgentViewsOf(ags), resetTime)
         == Begin(sv, st, frameIdx, resetFrames, roles, dirDraws, tDraws)
  {
    ags, resetTime := agents, lastResetTime;
    if frameIdx as int in resetFrames && frameIdx != 0 {
      resetTime := frameIdx as real / st.fps as real;
      ResetSegments(segments);
      ags := CreateAgents(st.swarmSize, roles, dirDraws, tDraws);
      assert SegViewsOf(segments) == RestoredAll(sv.segs);
    }
  }

  /** The first half of a tick: decay, the spike, compute_fields and role
      switching. */
  method StartTick(segments: seq<VeinSegment>, agents: seq<SwarmAgent>, st: Settings, lastResetTime: real,
                   frameIdx: nat, orders: Orders, ghost sv: SimView)
    requires DistinctSegments(segments) && DistinctAgents(agents) && st.fps > 0
    requires sv == SimView(SegViewsOf(segments), AgentViewsOf(agents), lastResetTime) && SimOk(sv)
    requires OrdersFor(orders, |sv.agents|)
    modifies segments, agents
    ensures Walk(SegViewsOf(segments), AgentViewsOf(agents), Zeros(|segments|)) == StartWalk(sv, st, frameIdx, orders)
  {
    var cycle := frameIdx as real / st.fps as real - lastResetTime;
    PreparePhase(segments, st, cycle, sv.segs, agents);
    UpdateRoleSwitching(segments, agents, st, orders, frameIdx, sv.agents);
  }

  /** The second half of a tick: the agent loop and blockage reduction. */
  method FinishTick(segments: seq<VeinSegment>, agents: seq<SwarmAgent>, st: Settings,
                    frameIdx: nat, orders: Orders, draws: seq<AgentDraw>, ghost sv: SimView)
    requires DistinctSegments(segments) && DistinctAgents(agents) && st.fps > 0 && SimOk(sv)
    requires OrdersFor(orders, |sv.agents|) && DrawsOk(draws, |sv.agents|)
    requires Walk(SegViewsOf(segments), AgentViewsOf(agents), Zeros(|segments|)) == StartWalk(sv, st, frameIdx, orders)
    modifies segments, agents
    ensures SimView(SegViewsOf(segments), AgentViewsOf(agents), sv.lastResetTime) == Tick(sv, st, frameIdx, orders, draws)
  {
    ghost var w0 := Walk(SegViewsOf(segments), AgentViewsOf(agents), Zeros(|segments|));
    StartWalkOk(sv, st, frameIdx, orders);
    var activity := AgentPhase(segments, agents, st, draws, w0);
    ghost var w := Walk(SegViewsOf(segments), AgentViewsOf(agents), activity);
    assert w == TickWalk(sv, st, frameIdx, orders, draws);
    ReducePhase(segments, activity, w.segs, agents);
  }

  // ---------------------------------------------------------------- the frame loop

  /** The random draws one frame consumes: a fresh swarm in case it resets,
      the shuffle orders of role switching and each agent's draws. */
  datatype FrameDraws = FrameDraws(roles: seq<Role>, dirDraws: seq<real>, tDraws: seq<real>,
                                   orders: Orders, draws: seq<AgentDraw>)

  predicate FrameDrawsOk(fd: FrameDraws, n: nat) {
    Shuffled(fd.roles, n) && DrawsFor(fd.dirDraws, n) && DrawsFor(fd.tDraws, n)
    && OrdersFor(fd.orders, n) && DrawsOk(fd.draws, n)
  }

  predicate AllFramesOk(fds: seq<FrameDraws>, n: nat) {
    forall f :: 0 <= f < |fds| ==> FrameDrawsOk(fds[f], n)
  }

  /** One pass of the frame loop: the reset check, then one tick. */
  function Frame(sv: SimView, st: Settings, frameIdx: nat, resetFrames: set<int>, fd: FrameDraws): SimView
    requires SimOk(sv) && st.fps > 0 && |sv.agents| == st.swarmSize && FrameDrawsOk(fd, st.swarmSize)
  {
    BeginFacts(sv, st, frameIdx, resetFrames, fd.roles, fd.dirDraws, fd.tDraws);
    Tick(Begin(sv, st, frameIdx, resetFrames, fd.roles, fd.dirDraws, fd.tDraws), st, frameIdx, fd.orders, fd.draws)
  }

  /** A frame keeps the state invariant and the swarm size. */
  lemma FrameFacts(sv: SimView, st: Settings, frameIdx: nat, resetFrames: set<int>, fd: FrameDraws)
    requires SimOk(sv) && st.fps > 0 && |sv.agents| == st.swarmSize && FrameDrawsOk(fd, st.swarmSize)
    ensures var r := Frame(sv, st, frameIdx, resetFrames, fd);
            SimOk(r) && |r.agents| == st.swarmSize
  {
    var b := Begin(sv, st, frameIdx, resetFrames, fd.roles, fd.dirDraws, fd.tDraws);
    BeginFacts(sv, st, frameIdx, resetFrames, fd.roles, fd.dirDraws, fd.tDraws);
    TickFacts(b, st, frameIdx, fd.orders, fd.draws);
  }

  /** The state after frames `0 .. k - 1`, with frame `f` drawing `fds[f]`;
      every state on the way satisfies the invariant and has `swarm_size`
      agents. */
  function Run(sv: SimView, st: Settings, resetFrames: set<int>, fds: seq<FrameDraws>, k: nat): (r: SimView)
    requires SimOk(sv) && st.fps > 0 && |sv.agents| == st.swarmSize
    requires AllFramesOk(fds, st.swarmSize) && k <= |fds|
    ensures SimOk(r) && |r.agents| == st.swarmSize
  {
    if k == 0 then sv
    else
      var prev := Run(sv, st, resetFrames, fds, k - 1);
      FrameFacts(prev, st, k - 1, resetFrames, fds[k - 1]);
      Frame(prev, st, k - 1, resetFrames, fds[k - 1])
  }

  /** Set-up followed by a run of `duration_sec * fps` frames; with `fps`
      or `duration_sec` 0 there are no frames at all. */
  function Simulation(st: Settings, durationSec: nat, resetAt: Option<real>, lengths: seq<real>,
                      roles: seq<Role>, dirDraws: seq<real>, tDraws: seq<real>, fds: seq<FrameDraws>): (r: SimView)
    requires NetworkLengths(lengths)
    requires Shuffled(roles, st.swarmSize) && DrawsFor(dirDraws, st.swarmSize) && DrawsFor(tDraws, st.swarmSize)
    requires |fds| == durationSec * st.fps && AllFramesOk(fds, st.swarmSize)
    ensures SimOk(r) && |r.agents| == st.swarmSize
  {
    InitialStateOk(st.swarmSize, lengths, roles, dirDraws, tDraws);
    if st.fps == 0 then InitialState(lengths, roles, dirDraws, tDraws)  // `range(0)`: no frames
    else Run(InitialState(lengths, roles, dirDraws, tDraws), st, ResetFrames(durationSec, st.fps, resetAt), fds, |fds|)
  }

  /** With `fps` or `duration_sec` 0 the frame loop never runs, so no
      `frame_idx % fps` is evaluated and the result is the set-up state. */
  lemma NoFramesSimulation(st: Settings, durationSec: nat, resetAt: Option<real>, lengths: seq<real>,
                           roles: seq<Role>, dirDraws: seq<real>, tDraws: seq<real>, fds: seq<FrameDraws>)
    requires NetworkLengths(lengths)
    requires Shuffled(roles, st.swarmSize) && DrawsFor(dirDraws, st.swarmSize) && DrawsFor(tDraws, st.swarmSize)
    requires |fds| == durationSec * st.fps && AllFramesOk(fds, st.swarmSize)
    requires st.fps == 0 || durationSec == 0
    ensures Simulation(st, durationSec, resetAt, lengths, roles, dirDraws, tDraws, fds)
         == InitialState(lengths, roles, dirDraws, tDraws)
  {
    if st.fps > 0 {
      assert |fds| == 0 * st.fps == 0;
      var init := InitialState(lengths, roles, dirDraws, tDraws);
      InitialStateOk(st.swarmSize, lengths, roles, dirDraws, tDraws);
      assert Run(init, st, ResetFrames(durationSec, st.fps, resetAt), fds, 0) == init;
    }
  }

  /** The body of the frame loop for frame `frameIdx`. */
  method RunFrame(segments: seq<VeinSegment>, agents: seq<SwarmAgent>, st: Settings, lastResetTime: real,
                  frameIdx: nat, resetFrames: set<int>, fd: FrameDraws, ghost sv: SimView)
    returns (ags: seq<SwarmAgent>, resetTime: real)
    requires DistinctSegments(segments) && DistinctAgents(agents) && st.fps > 0
    requires sv == SimView(SegViewsOf(segments), AgentViewsOf(agents), lastResetTime)
    requires SimOk(sv) && |sv.agents| == st.swarmSize && FrameDrawsOk(fd, st.swarmSize)
    modifies segments, agents
    ensures DistinctAgents(ags)
    ensures ags == agents || forall k :: 0 <= k < |ags| ==> fresh(ags[k])
    ensures SimView(SegViewsOf(segments), AgentViewsOf(ags), resetTime) == Frame(sv, st, frameIdx, resetFrames, fd)
  {
    ags, resetTime := BeginPhase(segments, agents, st, lastResetTime, frameIdx, resetFrames,
                                 fd.roles, fd.dirDraws, fd.tDraws, sv);
    ghost var b := SimView(SegViewsOf(segments), AgentViewsOf(ags), resetTime);
    BeginFacts(sv, st, frameIdx, resetFrames, fd.roles, fd.dirDraws, fd.tDraws);
    StartTick(segments, ags, st, resetTime, frameIdx, fd.orders, b);
    FinishTick(segments, ags, st, frameIdx, fd.orders, fd.draws, b);
  }

  /** create_swarm_simulation without the rendering: set-up, the reset
      frames, and the frame loop; returns the final network, swarm and reset
      time, which are those of `Simulation`. */
  method CreateSwarmSimulation(st: Settings, durationSec: nat, resetAt: Option<real>, lengths: seq<real>,
                               roles: seq<Role>, dirDraws: seq<real>, tDraws: seq<real>, fds: seq<FrameDraws>)
    returns (segments: seq<VeinSegment>, agents: seq<SwarmAgent>, lastResetTime: real)
    requires NetworkLengths(lengths)
    requires Shuffled(roles, st.swarmSize) && DrawsFor(dirDraws, st.swarmSize) && DrawsFor(tDraws, st.swarmSize)
    requires |fds| == durationSec * st.fps && AllFramesOk(fds, st.swarmSize)
    ensures DistinctSegments(segments) && DistinctAgents(agents)
    ensures SimView(SegViewsOf(segments), AgentViewsOf(agents), lastResetTime)
         == Simulation(st, durationSec, resetAt, lengths, roles, dirDraws, tDraws, fds)
  {
    segments, agents := SetUp(st.swarmSize, lengths, roles, dirDraws, tDraws);
    lastResetTime := 0.0;
    var resetFrames := ResetFrames(durationSec, st.fps, resetAt);
    InitialStateOk(st.swarmSize, lengths, roles, dirDraws, tDraws);
    if st.fps == 0 {
      return;  // `range(0)`: no frames
    }
    ghost var init := InitialState(lengths, roles, dirDraws, tDraws);
    var f := 0;
    while f < |fds|
      invariant f <= |fds|
      invariant DistinctSegments(segments) && DistinctAgents(agents)
      invariant forall k :: 0 <= k < |segments| ==> fresh(segments[k])
      invariant forall k :: 0 <= k < |agents| ==> fresh(agents[k])
      invariant SimView(SegViewsOf(segments), AgentViewsOf(agents), lastResetTime) == Run(init, st, resetFrames, fds, f)
    {
      agents, lastResetTime := RunFrame(segments, agents, st, lastResetTime, f, resetFrames, fds[f],
                                        SimView(SegViewsOf(segments), AgentViewsOf(agents), lastResetTime));
      f := f + 1;
    }
  }
}
