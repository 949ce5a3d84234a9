/** The agents of the flow-redirection swarm (run_flow_redirection_swarm_sim.py):
    agent creation with fixed role ratios, the role tally, the treatment
    phases and the temporary-plug state machine. */
module FlowSwarm {
  import opened Basics
  import opened Numeric
  import opened Tally
  import opened FlowNetwork

  // ---------------------------------------------------------------- agents

  /** The state of one `SwarmAgent`: its role, the segment it is on and its
      position `t` along that segment. */
  datatype AgentView = AgentView(role: Role, segmentId: nat, t: real)

  class SwarmAgent {
    var role: Role
    var segmentId: nat
    var t: real

    function View(): AgentView
      reads this
    {
      AgentView(role, segmentId, t)
    }

    constructor (role: Role, segmentId: nat, t: real)
      ensures View() == AgentView(role, segmentId, t)
    {
      this.role, this.segmentId, this.t := role, segmentId, t;
    }
  }

  function AgentViewsOf(agents: seq<SwarmAgent>): (vs: seq<AgentView>)
    reads agents
    ensures |vs| == |agents| && forall k :: 0 <= k < |agents| ==> vs[k] == agents[k].View()
  {
    seq(|agents|, k requires 0 <= k < |agents| reads agents => agents[k].View())
  }

  ghost predicate DistinctAgents(agents: seq<SwarmAgent>) {
    forall a, b :: 0 <= a < b < |agents| ==> agents[a] != agents[b]
  }

  function Roles(vs: seq<AgentView>): (rs: seq<Role>)
    ensures |rs| == |vs| && forall k :: 0 <= k < |vs| ==> rs[k] == vs[k].role
  {
    seq(|vs|, k requires 0 <= k < |vs| => vs[k].role)
  }

  // ---------------------------------------------------------------- role_counts

  datatype RoleTally = RoleTally(scout: nat, worker: nat, repair: nat, monitor: nat)

  function TallyOf(rs: seq<Role>): RoleTally {
    RoleTally(Count(rs, Scout), Count(rs, Worker), Count(rs, Repair), Count(rs, Monitor))
  }

  function TallyTotal(c: RoleTally): nat {
    c.scout + c.worker + c.repair + c.monitor
  }

  /** Every agent holds exactly one of the four roles, so the tally adds up to
      the population. */
  lemma {:induction false} TallyCoversAll(rs: seq<Role>)
    ensures TallyTotal(TallyOf(rs)) == |rs|
  {
    if rs != [] {
      var init := rs[..|rs| - 1];
      TallyCoversAll(init);
      assert TallyOf(rs) == TallyOf(init).(
        scout := Count(init, Scout) + (if rs[|rs| - 1] == Scout then 1 else 0),
        worker := Count(init, Worker) + (if rs[|rs| - 1] == Worker then 1 else 0),
        repair := Count(init, Repair) + (if rs[|rs| - 1] == Repair then 1 else 0),
        monitor := Count(init, Monitor) + (if rs[|rs| - 1] == Monitor then 1 else 0));
    }
  }

  /** role_counts: one counter per role, incremented for each agent. */
  method RoleCounts(agents: seq<SwarmAgent>) returns (c: RoleTally)
    ensures c == TallyOf(Roles(AgentViewsOf(agents)))
  {
    ghost var rs := Roles(AgentViewsOf(agents));
    c := RoleTally(0, 0, 0, 0);
    var k := 0;
    while k < |agents|
      invariant k <= |agents|
      invariant c == TallyOf(rs[..k])
    {
      assert rs[..k + 1][..k] == rs[..k];
      match agents[k].role {
        case Scout => c := c.(scout := c.scout + 1);
        case Worker => c := c.(worker := c.worker + 1);
        case Repair => c := c.(repair := c.repair + 1);
        case Monitor => c := c.(monitor := c.monitor + 1);
      }
      k := k + 1;
    }
    assert rs[..k] == rs;
  }

  // ---------------------------------------------------------------- create_agents

  /** `int(swarm_size * percent / 100)` for a non-negative swarm size. */
  function Quota(n: nat, percent: nat): nat {
    n * percent / 100
  }

  lemma QuotasFit(n: nat)
    ensures Quota(n, 25) + Quota(n, 40) + Quota(n, 20) <= n
  {
    assert Quota(n, 25) * 100 <= n * 25;
    assert Quota(n, 40) * 100 <= n * 40;
    assert Quota(n, 20) * 100 <= n * 20;
  }

  /** The Monitors take whatever the other three quotas leave. */
  function MonitorQuota(n: nat): nat {
    QuotasFit(n);
    n - (Quota(n, 25) + Quota(n, 40) + Quota(n, 20))
  }

  /** The role list before shuffling: Scouts, Workers, Repairs, then Monitors. */
  function RoleList(n: nat): seq<Role> {
    Repeat(Scout, Quota(n, 25)) + Repeat(Worker, Quota(n, 40))
    + Repeat(Repair, Quota(n, 20)) + Repeat(Monitor, MonitorQuota(n))
  }

  lemma RoleListMultiset(n: nat)
    ensures multiset(RoleList(n))[Scout] == Quota(n, 25)
    ensures multiset(RoleList(n))[Worker] == Quota(n, 40)
    ensures multiset(RoleList(n))[Repair] == Quota(n, 20)
    ensures multiset(RoleList(n))[Monitor] == MonitorQuota(n)
    ensures |RoleList(n)| == n
  {
    RepeatMultiset(Scout, Quota(n, 25));
    RepeatMultiset(Worker, Quota(n, 40));
    RepeatMultiset(Repair, Quota(n, 20));
    RepeatMultiset(Monitor, MonitorQuota(n));
  }

  /** A shuffle of the role list, supplied as the permutation `rng.shuffle` chose. */
  predicate Shuffled(roles: seq<Role>, n: nat) {
    |roles| == n && multiset(roles) == multiset(RoleList(n))
  }

  predicate DrawsFor(ds: seq<real>, n: nat) {
    |ds| == n && forall k :: 0 <= k < n ==> IsDraw(ds[k])
  }

  /** One agent per shuffled role, on the trunk at the drawn position. */
  function Recruits(roles: seq<Role>, tDraws: seq<real>): (vs: seq<AgentView>)
    requires |tDraws| == |roles|
    ensures |vs| == |roles|
  {
    seq(|roles|, k requires 0 <= k < |roles| => AgentView(roles[k], 0, tDraws[k]))
  }

  /** What create_agents promises: exactly `n` agents, of which 25%, 40% and
      20% (rounded down) are Scouts, Workers and Repairs and the rest
      Monitors, all on segment 0 with `t` in [0,1). */
  lemma RecruitsFacts(n: nat, roles: seq<Role>, tDraws: seq<real>)
    requires Shuffled(roles, n) && DrawsFor(tDraws, n)
    ensures var vs := Recruits(roles, tDraws);
            && |vs| == n
            && TallyOf(Roles(vs)) == RoleTally(Quota(n, 25), Quota(n, 40), Quota(n, 20), MonitorQuota(n))
            && MonitorQuota(n) + Quota(n, 25) + Quota(n, 40) + Quota(n, 20) == n
            && forall k :: 0 <= k < n ==> vs[k].segmentId == 0 && 0.0 <= vs[k].t < 1.0
  {
    var vs := Recruits(roles, tDraws);
    assert Roles(vs) == roles;
    RoleListMultiset(n);
    CountIsMultiplicity(roles, Scout);
    CountIsMultiplicity(roles, Worker);
    CountIsMultiplicity(roles, Repair);
    CountIsMultiplicity(roles, Monitor);
  }

  /** create_agents, given the shuffled roles and the position draws: fresh,
      distinct agents, one per role. */
  method CreateAgents(n: nat, roles: seq<Role>, tDraws: seq<real>) returns (agents: seq<SwarmAgent>)
    requires Shuffled(roles, n) && DrawsFor(tDraws, n)
    ensures DistinctAgents(agents) && forall k :: 0 <= k < |agents| ==> fresh(agents[k])
    ensures AgentViewsOf(agents) == Recruits(roles, tDraws)
  {
    agents := [];
    var k := 0;
    while k < |roles|
      invariant k <= |roles| && |agents| == k && DistinctAgents(agents)
      invariant forall j :: 0 <= j < k ==> fresh(agents[j])
      invariant forall j :: 0 <= j < k ==> agents[j].View() == AgentView(roles[j], 0, tDraws[j])
    {
      var agent := new SwarmAgent(roles[k], 0, tDraws[k]);
      agents := agents + [agent];
      k := k + 1;
    }
  }

  // ---------------------------------------------------------------- phases

  datatype Phase = Baseline | TemporaryPlug | Remodeling

  /** `time_sec = frame_idx / fps`. */
  function TimeOf(frameIdx: nat, fps: nat): real
    requires fps > 0
  {
    frameIdx as real / fps as real
  }

  /** The phase label: baseline for the first 5 seconds, the temporary plug
      until 12 seconds, remodelling afterwards. */
  function PhaseAt(frameIdx: nat, fps: nat): Phase
    requires fps > 0
  {
    var t := TimeOf(frameIdx, fps);
    if t < 5.0 then Baseline else if t < 12.0 then TemporaryPlug else Remodeling
  }

  /** The phases by frame: baseline before frame `5 * fps`, the plug phase
      until frame `12 * fps`, remodelling from then on. */
  lemma PhaseFrames(frameIdx: nat, fps: nat)
    requires fps > 0
    ensures PhaseAt(frameIdx, fps) == Baseline <==> frameIdx < 5 * fps
    ensures PhaseAt(frameIdx, fps) == TemporaryPlug <==> 5 * fps <= frameIdx < 12 * fps
    ensures PhaseAt(frameIdx, fps) == Remodeling <==> 12 * fps <= frameIdx
  {
    BelowRatio(frameIdx as real, fps as real, 5.0);
    BelowRatio(frameIdx as real, fps as real, 12.0);
  }

  function PhaseRank(p: Phase): nat {
    match p
    case Baseline => 0
    case TemporaryPlug => 1
    case Remodeling => 2
  }

  /** The phases only move forward as the frames advance. */
  lemma PhaseMonotone(f1: nat, f2: nat, fps: nat)
    requires fps > 0 && f1 <= f2
    ensures PhaseRank(PhaseAt(f1, fps)) <= PhaseRank(PhaseAt(f2, fps))
  {
    PhaseFrames(f1, fps);
    PhaseFrames(f2, fps);
  }

  // ---------------------------------------------------------------- the temporary plug

  datatype PlugState = Inactive | Forming | Active | Dissolving

  /** The plug variables of the frame loop: its state, its progress and its timer. */
  datatype Plug = Plug(state: PlugState, progress: real, timer: real)

  const PlugHoldTime: real := 4.0
  const PlugDissolveTime: real := 4.0

  const InitialPlug: Plug := Plug(Inactive, 0.0, 0.0)

  /** `max(12, int(swarm_size * 0.08))`. */
  function WorkerThreshold(n: nat): nat {
    if 12 >= Quota(n, 8) then 12 else Quota(n, 8)
  }

  function Idle(s: PlugState): bool {
    s == Inactive || s == Forming
  }

  /** The build step, only in the plug phase: with enough Workers on the
      faulty branch an idle plug forms a little more and becomes active with
      a full hold time once complete; with too few it erodes slightly. */
  function Build(p: Plug, phase: Phase, workers: nat, threshold: nat): Plug {
    if phase != TemporaryPlug || !Idle(p.state) then p
    else if workers >= threshold then
      var progress := Clamp(p.progress + 0.02, 0.0, 1.0);
      if progress >= 1.0 then Plug(Active, progress, PlugHoldTime) else Plug(Forming, progress, p.timer)
    else p.(progress := Clamp(p.progress - 0.006, 0.0, 1.0))
  }

  /** The hold step: an active plug counts its timer down and starts
      dissolving when the time is up or remodelling has begun. */
  function Hold(p: Plug, phase: Phase, fps: nat): Plug
    requires fps > 0
  {
    if p.state != Active then p
    else
      var timer := p.timer - 1.0 / fps as real;
      if timer <= 0.0 || phase == Remodeling then Plug(Dissolving, p.progress, PlugDissolveTime)
      else p.(timer := timer)
  }

  /** The dissolve step: a dissolving plug loses a share of its progress
      each frame and is inactive again once nothing is left. */
  function Dissolve(p: Plug, fps: nat): Plug
    requires fps > 0
  {
    if p.state != Dissolving then p
    else
      var progress := Clamp(p.progress - 1.0 / (PlugDissolveTime * fps as real), 0.0, 1.0);
      if progress <= 0.0 then Plug(Inactive, progress, 0.0)
      else Plug(Dissolving, progress, p.timer - 1.0 / fps as real)
  }

  /** The plug after one frame: build, hold and dissolve in turn. */
  function PlugUpdate(p: Plug, phase: Phase, workers: nat, threshold: nat, fps: nat): Plug
    requires fps > 0
  {
    Dissolve(Hold(Build(p, phase, workers, threshold), phase, fps), fps)
  }

  /** The plug invariant: progress in [0,1]; an inactive plug has no progress
      and no timer, a forming one no timer, an active one is complete with
      hold time left, and a dissolving one still has progress. */
  predicate PlugOk(p: Plug) {
    && InUnit(p.progress)
    && (p.state == Inactive ==> p.progress == 0.0 && p.timer == 0.0)
    && (p.state == Forming ==> p.timer == 0.0)
    && (p.state == Active ==> p.progress == 1.0 && 0.0 < p.timer <= PlugHoldTime)
    && (p.state == Dissolving ==> p.progress > 0.0 && p.timer <= PlugDissolveTime)
  }

  /** One frame's share of a second, and of the dissolve time. */
  lemma StepFraction(fps: nat)
    requires fps > 0
    ensures 0.0 < 1.0 / fps as real <= 1.0
    ensures 0.0 < 1.0 / (PlugDissolveTime * fps as real) <= 0.25
  {
    BelowRatio(1.0, fps as real, 1.0);
    BelowRatio(1.0, PlugDissolveTime * fps as real, 0.25);
  }

  /** Every frame keeps the plug invariant, in particular the progress in [0,1]. */
  lemma PlugUpdateKeeps(p: Plug, phase: Phase, workers: nat, threshold: nat, fps: nat)
    requires PlugOk(p) && fps > 0
    ensures PlugOk(Build(p, phase, workers, threshold))
    ensures PlugOk(PlugUpdate(p, phase, workers, threshold, fps))
  {
    StepFraction(fps);
  }

  /** An inactive plug starts forming only in the plug phase with at least
      `threshold` Workers on the faulty branch, and then it does form. */
  lemma PlugStartsForming(p: Plug, phase: Phase, workers: nat, threshold: nat, fps: nat)
    requires PlugOk(p) && fps > 0 && p.state == Inactive
    ensures PlugUpdate(p, phase, workers, threshold, fps).state != Inactive
            <==> phase == TemporaryPlug && workers >= threshold
    ensures phase == TemporaryPlug && workers >= threshold ==>
              PlugUpdate(p, phase, workers, threshold, fps) == Plug(Forming, 0.02, 0.0)
  {
    StepFraction(fps);
  }

  /** A forming plug in the plug phase with enough Workers grows by 0.02;
      the frame it reaches 1 it becomes active with the hold time of 4 less
      one frame. With too few Workers it erodes by 0.006 and stays forming. */
  lemma PlugForming(p: Plug, phase: Phase, workers: nat, threshold: nat, fps: nat)
    requires PlugOk(p) && fps > 0 && p.state == Forming && phase == TemporaryPlug
    ensures var r := PlugUpdate(p, phase, workers, threshold, fps);
            && (workers >= threshold && p.progress + 0.02 >= 1.0 ==>
                  r == Plug(Active, 1.0, PlugHoldTime - 1.0 / fps as real))
            && (workers >= threshold && p.progress + 0.02 < 1.0 ==>
                  r == Plug(Forming, p.progress + 0.02, 0.0))
            && (workers < threshold ==> r == Plug(Forming, Clamp(p.progress - 0.006, 0.0, 1.0), 0.0))
  {
    StepFraction(fps);
  }

  /** An active plug starts dissolving, with the full dissolve time less one
      frame and progress less one frame's share, exactly when its timer runs
      out or remodelling has begun; otherwise it counts down. */
  lemma PlugActive(p: Plug, phase: Phase, workers: nat, threshold: nat, fps: nat)
    requires PlugOk(p) && fps > 0 && p.state == Active
    ensures var r := PlugUpdate(p, phase, workers, threshold, fps);
            var timer := p.timer - 1.0 / fps as real;
            && (timer <= 0.0 || phase == Remodeling ==>
                  r == Plug(Dissolving, 1.0 - 1.0 / (PlugDissolveTime * fps as real), PlugDissolveTime - 1.0 / fps as real))
            && (timer > 0.0 && phase != Remodeling ==> r == Plug(Active, 1.0, timer))
  {
    StepFraction(fps);
  }

  /** A dissolving plug becomes inactive exactly when its progress runs out. */
  lemma PlugDissolving(p: Plug, phase: Phase, workers: nat, threshold: nat, fps: nat)
    requires PlugOk(p) && fps > 0 && p.state == Dissolving
    ensures var r := PlugUpdate(p, phase, workers, threshold, fps);
            var progress := p.progress - 1.0 / (PlugDissolveTime * fps as real);
            && (progress <= 0.0 ==> r == InitialPlug)
            && (progress > 0.0 ==> r == Plug(Dissolving, progress, p.timer - 1.0 / fps as real))
  {
    StepFraction(fps);
  }

  /** The plug statements of the frame body, on the plug variables. */
  method UpdatePlug(p: Plug, phase: Phase, workers: nat, threshold: nat, fps: nat) returns (q: Plug)
    requires fps > 0
    ensures q == PlugUpdate(p, phase, workers, threshold, fps)
  {
    var state, progress, timer := p.state, p.progress, p.timer;
    if phase == TemporaryPlug {
      if (state == Inactive || state == Forming) && workers >= threshold {
        state := Forming;
        progress := Clamp(progress + 0.02, 0.0, 1.0);
        if progress >= 1.0 {
          state := Active;
          timer := PlugHoldTime;
        }
      } else if state == Inactive || state == Forming {
        progress := Clamp(progress - 0.006, 0.0, 1.0);
      }
    }
    ghost var built := Plug(state, progress, timer);
    assert built == Build(p, phase, workers, threshold);
    if state == Active {
      timer := timer - 1.0 / fps as real;
      if timer <= 0.0 || phase == Remodeling {
        state := Dissolving;
        timer := PlugDissolveTime;
      }
    }
    assert Plug(state, progress, timer) == Hold(built, phase, fps);
    if state == Dissolving {
      progress := Clamp(progress - 1.0 / (PlugDissolveTime * fps as real), 0.0, 1.0);
      timer := timer - 1.0 / fps as real;
      if progress <= 0.0 {
        state := Inactive;
        timer := 0.0;
      }
    }
    q := Plug(state, progress, timer);
  }
}
