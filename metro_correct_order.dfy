/** Model of metro_train_correct_order.py: the five-coach train, in which an
    empty leader U-turns instead of waiting at the clot. It leaves the train as a
    returning coach, drives back to the catheter at 3 per frame and rejoins the
    train there; delivery goes on (even once the clot is gone) until the total
    applied reaches `clot_required + 2`, when the swarm evaluates and exits.

    As in the other two variants, each method is specified by a pure step
    function on a snapshot, and the properties are proved about those. */
module MetroCorrectOrder {
  import opened Basics
  import opened Numeric
  import opened MetroCommon

  // ---------------------------------------------------------------------------
  // Coach colour (get_color)

  datatype Color = Orange | LightBlue | SkyBlue | SteelBlue | DarkBlue

  /** How dark a shade is: 4 for dark blue down to 1 for light blue. */
  function Depth(c: Color): nat {
    match c
    case DarkBlue => 4
    case SteelBlue => 3
    case SkyBlue => 2
    case LightBlue => 1
    case Orange => 0
  }

  /** Colour of a coach from its returning flag and its medicine ratio. */
  function ColorOf(returning: bool, ratio: real): Color {
    if returning then Orange
    else if ratio > 0.75 then LightBlue
    else if ratio > 0.5 then SkyBlue
    else if ratio > 0.25 then SteelBlue
    else DarkBlue
  }

  /** A returning coach is orange; a coach in the train darkens as it empties:
      light blue above 75%, dark blue at 25% and below. */
  lemma ColorDarkensAsItEmpties(returning: bool, r1: real, r2: real)
    requires r1 <= r2
    ensures returning <==> ColorOf(returning, r1) == Orange
    ensures !returning ==> 1 <= Depth(ColorOf(returning, r2)) <= Depth(ColorOf(returning, r1))
    ensures !returning && r2 > 0.75 ==> ColorOf(returning, r2) == LightBlue
    ensures !returning && r1 <= 0.25 ==> ColorOf(returning, r1) == DarkBlue
  {
  }

  // ---------------------------------------------------------------------------
  // Clot

  /** `clot_remaining = max(0, clot_remaining - dispensed * dissolution_per_ml)`. */
  function Remaining(clot: real, ml: real, perMl: real): real {
    Max(0.0, clot - ml * perMl)
  }

  /** A non-negative dose never raises the clot and never takes it below 0;
      two doses in a row act as one dose of their sum. */
  lemma RemainingFacts(clot: real, a: real, b: real, perMl: real)
    requires 0.0 <= clot && a >= 0.0 && b >= 0.0 && perMl >= 0.0
    ensures 0.0 <= Remaining(clot, a, perMl) <= clot
    ensures Remaining(Remaining(clot, a, perMl), b, perMl) == Remaining(clot, a + b, perMl)
  {
  }

  /** A larger total dose leaves no more clot. */
  lemma RemainingMonotone(clot: real, a: real, b: real, perMl: real)
    requires a <= b && perMl >= 0.0
    ensures Remaining(clot, b, perMl) <= Remaining(clot, a, perMl)
  {
    assert a * perMl <= b * perMl;
  }

  /** The constants fixed by the constructor. */
  datatype Config = Config(capacity: real, perMl: real, threshold: real)

  // ---------------------------------------------------------------------------
  // Coaches

  /** Snapshot of one coach. */
  datatype CoachState = CoachState(
    coachLabel: string,
    capacity: real,
    x: real,
    y: real,
    medicineCurrent: real,
    deliveredAmount: real,
    active: bool,
    returning: bool)

  /** Per-coach invariant: the load is conserved and non-negative, the coach is
      either in the train (active) or returning, and it stays on the vessel axis. */
  predicate CoachOk(c: CoachState, capacity: real) {
    && c.capacity == capacity
    && c.medicineCurrent >= 0.0 && c.deliveredAmount >= 0.0
    && c.medicineCurrent + c.deliveredAmount == capacity
    && c.active != c.returning
    && c.y == CatheterY
  }

  /** Membership of the active train: `c.active and not c.returning`. */
  predicate InTrain(c: CoachState) {
    c.active && !c.returning
  }

  /** `dispense_medicine`: hand out at most `ml` of what is left. */
  function DoseOf(c: CoachState, ml: real): real {
    Min(ml, c.medicineCurrent)
  }

  /** The coach after handing out its dose. */
  function Dispensed(c: CoachState, ml: real): CoachState {
    c.(medicineCurrent := c.medicineCurrent - DoseOf(c, ml), deliveredAmount := c.deliveredAmount + DoseOf(c, ml))
  }

  /** A dispense of a non-negative amount hands out `min(ml, medicine_current)`,
      never leaves the load negative and conserves load plus delivered amount. */
  lemma DispenseConserves(c: CoachState, ml: real, capacity: real)
    requires CoachOk(c, capacity) && ml >= 0.0
    ensures var c2, d := Dispensed(c, ml), DoseOf(c, ml);
      && 0.0 <= d <= ml && d <= c.medicineCurrent
      && (d == ml || d == c.medicineCurrent)
      && (c.medicineCurrent > 0.0 && ml > 0.0 ==> d > 0.0)
      && CoachOk(c2, capacity)
      && c2.medicineCurrent == c.medicineCurrent - d
      && c2 == c.(medicineCurrent := c2.medicineCurrent, deliveredAmount := c2.deliveredAmount)
  {
  }

  class NanobotCoach {
    const coachLabel: string
    const pos: nat
    const medicineCapacity: real
    var x: real
    var y: real
    var medicineCurrent: real
    var deliveredAmount: real
    var active: bool
    var returning: bool

    function View(): CoachState
      reads this
    {
      CoachState(coachLabel, medicineCapacity, x, y, medicineCurrent, deliveredAmount, active, returning)
    }

    constructor (labelText: string, initialPosition: nat, x0: real, y0: real, capacity: real)
      ensures View() == CoachState(labelText, capacity, x0, y0, capacity, 0.0, true, false)
      ensures pos == initialPosition
    {
      coachLabel, pos, medicineCapacity := labelText, initialPosition, capacity;
      x, y := x0, y0;
      medicineCurrent, deliveredAmount := capacity, 0.0;
      active, returning := true, false;
    }

    method UpdatePosition(vx: real)
      modifies this
      ensures View() == old(View()).(x := old(x) + vx)
    {
      x := x + vx;
    }

    method DispenseMedicine(mlPerFrame: real) returns (dispensed: real)
      modifies this
      ensures dispensed == DoseOf(old(View()), mlPerFrame)
      ensures View() == Dispensed(old(View()), mlPerFrame)
    {
      dispensed := Min(mlPerFrame, medicineCurrent);
      medicineCurrent := medicineCurrent - dispensed;
      deliveredAmount := deliveredAmount + dispensed;
    }

    function GetColor(): Color
      reads this
      requires medicineCapacity != 0.0
    {
      ColorOf(returning, medicineCurrent / medicineCapacity)
    }
  }

  // ---------------------------------------------------------------------------
  // Views of the whole train

  function Xs(vs: seq<CoachState>): (r: seq<real>)
    ensures |r| == |vs| && forall k :: 0 <= k < |vs| ==> r[k] == vs[k].x
  {
    seq(|vs|, k requires 0 <= k < |vs| => vs[k].x)
  }

  function TrainFlags(vs: seq<CoachState>): (r: seq<bool>)
    ensures |r| == |vs| && forall k :: 0 <= k < |vs| ==> r[k] == InTrain(vs[k])
  {
    seq(|vs|, k requires 0 <= k < |vs| => InTrain(vs[k]))
  }

  function ReturningFlags(vs: seq<CoachState>): (r: seq<bool>)
    ensures |r| == |vs| && forall k :: 0 <= k < |vs| ==> r[k] == vs[k].returning
  {
    seq(|vs|, k requires 0 <= k < |vs| => vs[k].returning)
  }

  function Delivered(vs: seq<CoachState>): (r: seq<real>)
    ensures |r| == |vs| && forall k :: 0 <= k < |vs| ==> r[k] == vs[k].deliveredAmount
  {
    seq(|vs|, k requires 0 <= k < |vs| => vs[k].deliveredAmount)
  }

  /** The leader: the rightmost coach of the active train. */
  function Leader(vs: seq<CoachState>): Option<nat> {
    FirstMax(Xs(vs), TrainFlags(vs))
  }

  /** The leftmost coach of the active train. */
  function Back(vs: seq<CoachState>): Option<nat> {
    FirstMin(Xs(vs), TrainFlags(vs))
  }

  /** Every coach, returning ones included, is back at the catheter. */
  predicate AllBack(vs: seq<CoachState>) {
    forall k :: 0 <= k < |vs| ==> vs[k].x <= CatheterX + 25.0
  }

  /** get_active_train (as coach indices): exactly the active, non-returning
      coaches, sorted by x. */
  function ActiveTrain(vs: seq<CoachState>): (r: seq<nat>)
    ensures forall k :: 0 <= k < |r| ==> r[k] < |vs| && InTrain(vs[r[k]])
    ensures forall k :: 0 <= k < |vs| && InTrain(vs[k]) ==> k in r
    ensures forall a, b :: 0 <= a < b < |r| ==> r[a] != r[b]
    ensures forall a, b :: 0 <= a < b < |r| ==> vs[r[a]].x <= vs[r[b]].x
    ensures forall a, b :: 0 <= a < b < |r| && vs[r[a]].x == vs[r[b]].x ==> r[a] < r[b]
  {
    var r := SortedMembers(TrainFlags(vs), Xs(vs));
    forall a, b | 0 <= a < b < |r| ensures vs[r[a]].x <= vs[r[b]].x {
      assert Xs(vs)[r[a]] <= Xs(vs)[r[b]];
    }
    r
  }

  /** The active train is non-empty exactly when it has a leader. */
  lemma ActiveTrainNonEmpty(vs: seq<CoachState>)
    ensures |ActiveTrain(vs)| > 0 <==> Leader(vs).Some?
  {
    var r := ActiveTrain(vs);
    if |r| > 0 {
      assert TrainFlags(vs)[r[0]];
    }
    if Leader(vs).Some? {
      assert Leader(vs).value in r;
    }
  }

  /** The whole swarm. */
  datatype SwarmView = SwarmView(
    coaches: seq<CoachState>,
    clot: real,
    log: seq<LogEntry<real>>,
    total: real,
    state: SwarmState,
    cycles: nat,
    effect: real,
    frame: nat,
    time: real)

  /** What every step keeps: each coach is valid, the clot is a fresh clot after
      the total dose, the log and the coaches account for the same total, the
      effect is non-negative, and COMPLETE holds only with every coach back at
      the catheter. */
  predicate Inv(sv: SwarmView, cfg: Config) {
    && |sv.coaches| == CoachCount
    && (forall k :: 0 <= k < |sv.coaches| ==> CoachOk(sv.coaches[k], cfg.capacity))
    && sv.total == LogTotal(sv.log)
    && sv.total == Sum(Delivered(sv.coaches))
    && sv.total >= 0.0
    && sv.clot == Remaining(100.0, sv.total, cfg.perMl)
    && sv.effect >= 0.0
    && (sv.state == Complete ==> AllBack(sv.coaches))
  }

  function InitialCoach(k: nat, capacity: real): CoachState
    requires k < CoachCount
  {
    CoachState(Labels[k], capacity, CatheterX + k as real * CoachSpacing, CatheterY, capacity, 0.0, true, false)
  }

  function InitialView(capacity: real): SwarmView {
    SwarmView(seq(CoachCount, k requires 0 <= k < CoachCount => InitialCoach(k, capacity)),
              100.0, [], 0.0, Entering, 0, 0.0, 0, 0.0)
  }

  /** The swarm starts valid: C1..C5 in a train 35 apart from the catheter, C5 in front. */
  lemma InitialValid(cfg: Config)
    requires cfg.capacity >= 0.0
    ensures Inv(InitialView(cfg.capacity), cfg)
    ensures Leader(InitialView(cfg.capacity).coaches) == Some(CoachCount - 1)
  {
    var vs := InitialView(cfg.capacity).coaches;
    SumBounds(Delivered(vs), 0.0);
    var xs := Xs(vs);
    assert xs == [50.0, 85.0, 120.0, 155.0, 190.0];
  }

  // ---------------------------------------------------------------------------
  // move_train

  function Moved(c: CoachState, vx: real): CoachState {
    if InTrain(c) then c.(x := c.x + vx) else c
  }

  /** Every coach of the active train moves by `vx`. */
  function Advance(vs: seq<CoachState>, vx: real): (r: seq<CoachState>)
    ensures |r| == |vs| && forall k :: 0 <= k < |vs| ==> r[k] == Moved(vs[k], vx)
  {
    seq(|vs|, k requires 0 <= k < |vs| => Moved(vs[k], vx))
  }

  /** Moving the train keeps the gaps between its coaches, leaves returning
      coaches where they are, and keeps the same leader and the same back coach. */
  lemma AdvanceKeepsShape(vs: seq<CoachState>, vx: real)
    ensures var r := Advance(vs, vx);
      && (forall a, b :: 0 <= a < |vs| && 0 <= b < |vs| && InTrain(vs[a]) && InTrain(vs[b])
            ==> r[a].x - r[b].x == vs[a].x - vs[b].x)
      && (forall k :: 0 <= k < |vs| && !InTrain(vs[k]) ==> r[k] == vs[k])
      && Leader(r) == Leader(vs) && Back(r) == Back(vs)
  {
    var r := Advance(vs, vx);
    assert TrainFlags(r) == TrainFlags(vs);
    FirstMaxShift(Xs(vs), Xs(r), TrainFlags(vs), vx, |vs|);
    FirstMinShift(Xs(vs), Xs(r), TrainFlags(vs), vx, |vs|);
  }

  function MoveStep(sv: SwarmView): SwarmView {
    match Leader(sv.coaches)
    case None => sv
    case Some(l) =>
      var lx := sv.coaches[l].x;
      if sv.state == Entering then
        if lx < CatheterX + 60.0 then sv.(coaches := Advance(sv.coaches, 3.0)) else sv.(state := Approaching)
      else if sv.state == Approaching then
        if TargetX - lx > 5.0 then sv.(coaches := Advance(sv.coaches, ApproachSpeed(TargetX - lx)))
        else sv.(state := Delivering)
      else sv
  }

  /** move_train changes only the train's positions and the state: ENTERING
      becomes APPROACHING once the leader is 60 past the catheter, APPROACHING
      becomes DELIVERING once the leader is within 5 of the clot, and otherwise
      the whole train advances by one speed of the schedule (3 when entering). */
  lemma MoveTrainTransitions(sv: SwarmView)
    ensures var r := MoveStep(sv);
      && r == sv.(coaches := r.coaches, state := r.state)
      && (r.state == sv.state || (sv.state == Entering && r.state == Approaching)
          || (sv.state == Approaching && r.state == Delivering))
      && (r.state != sv.state ==> r.coaches == sv.coaches && Leader(sv.coaches).Some?)
      && (sv.state == Entering && r.state == Approaching
          ==> sv.coaches[Leader(sv.coaches).value].x >= CatheterX + 60.0)
      && (sv.state == Approaching && r.state == Delivering
          ==> TargetX - sv.coaches[Leader(sv.coaches).value].x <= 5.0)
      && (r.coaches != sv.coaches ==> exists vx :: 0.0 < vx <= 4.0 && r.coaches == Advance(sv.coaches, vx))
      && (sv.state != Entering && sv.state != Approaching ==> r == sv)
  {
    match Leader(sv.coaches)
    case None =>
    case Some(l) =>
      var lx := sv.coaches[l].x;
      if sv.state == Entering && lx < CatheterX + 60.0 {
        assert MoveStep(sv).coaches == Advance(sv.coaches, 3.0);
      } else if sv.state == Approaching && TargetX - lx > 5.0 {
        var vx := ApproachSpeed(TargetX - lx);
        assert MoveStep(sv).coaches == Advance(sv.coaches, vx);
      }
  }

  // ---------------------------------------------------------------------------
  // deliver_medicine_to_clot

  /** The depleted leader leaves the front of the train and turns back. */
  function TurnedBack(c: CoachState): CoachState {
    c.(active := false, returning := true)
  }

  /** The swarm after the leader `l` hands out one dose. */
  function DispenseOutcome(sv: SwarmView, cfg: Config, l: nat): SwarmView
    requires l < |sv.coaches|
  {
    var c := sv.coaches[l];
    var d := DoseOf(c, MlPerFrame);
    var total := sv.total + d;
    var clot := Remaining(sv.clot, d, cfg.perMl);
    var entry := LogEntry(sv.frame, sv.time, c.coachLabel, 0.0, total, clot);
    sv.(coaches := sv.coaches[l := Dispensed(c, MlPerFrame)], total := total, effect := sv.effect + d,
        clot := clot, log := Record(sv.log, entry, d),
        state := if total >= cfg.threshold then Evaluating else sv.state)
  }

  function DeliverStep(sv: SwarmView, cfg: Config): SwarmView {
    match Leader(sv.coaches)
    case None => sv
    case Some(l) =>
      var c := sv.coaches[l];
      if !(Abs(TargetX - c.x) <= 15.0 && sv.state == Delivering) then sv
      else if c.medicineCurrent > 0.0 then DispenseOutcome(sv, cfg, l)
      else sv.(coaches := sv.coaches[l := TurnedBack(c)], cycles := sv.cycles + 1, state := Approaching)
  }

  /** deliver_medicine_to_clot does nothing outside DELIVERING; a leader with
      medicine at the clot always dispenses, whether or not any clot is left,
      adding at most 0.05 ml to the total and the effect and switching to
      EVALUATING exactly when the total reaches the threshold; a depleted leader
      turns back and the train returns to APPROACHING, one cycle later. */
  lemma DeliverFacts(sv: SwarmView, cfg: Config)
    requires forall k :: 0 <= k < |sv.coaches| ==> CoachOk(sv.coaches[k], cfg.capacity)
    ensures var r := DeliverStep(sv, cfg);
      && (sv.state != Delivering ==> r == sv)
      && 0.0 <= r.total - sv.total <= MlPerFrame
      && (r.total != sv.total ==> (r.clot == Remaining(sv.clot, r.total - sv.total, cfg.perMl)
                                    && r.effect == sv.effect + (r.total - sv.total) && r.cycles == sv.cycles
                                    && (r.state == Evaluating <==> r.total >= cfg.threshold)
                                    && (r.state != Evaluating ==> r.state == Delivering)))
      && ((sv.state == Delivering && Leader(sv.coaches).Some?
           && Abs(TargetX - sv.coaches[Leader(sv.coaches).value].x) <= 15.0
           && sv.coaches[Leader(sv.coaches).value].medicineCurrent > 0.0) ==> r.total > sv.total)
      && (r.cycles != sv.cycles ==>
            && r.cycles == sv.cycles + 1 && r.state == Approaching && r.total == sv.total && r.log == sv.log
            && Leader(sv.coaches).Some?
            && var l := Leader(sv.coaches).value;
               r.coaches == sv.coaches[l := TurnedBack(sv.coaches[l])])
      && (r != sv ==> r.total != sv.total || r.cycles != sv.cycles)
  {
    match Leader(sv.coaches)
    case None =>
    case Some(l) =>
      DispenseConserves(sv.coaches[l], MlPerFrame, cfg.capacity);
  }

  lemma DeliverDispenseCase(sv: SwarmView, cfg: Config, l: nat)
    requires sv.state == Delivering && Leader(sv.coaches) == Some(l)
    requires Abs(TargetX - sv.coaches[l].x) <= 15.0 && sv.coaches[l].medicineCurrent > 0.0
    ensures DeliverStep(sv, cfg) == DispenseOutcome(sv, cfg, l)
  {
  }

  lemma DeliverTurnBackCase(sv: SwarmView, cfg: Config, l: nat)
    requires sv.state == Delivering && Leader(sv.coaches) == Some(l)
    requires Abs(TargetX - sv.coaches[l].x) <= 15.0 && sv.coaches[l].medicineCurrent <= 0.0
    ensures DeliverStep(sv, cfg) == sv.(coaches := sv.coaches[l := TurnedBack(sv.coaches[l])],
                                        cycles := sv.cycles + 1, state := Approaching)
  {
  }

  // ---------------------------------------------------------------------------
  // move_returning_coaches

  /** Coach `k` back at the catheter, active again, before it is placed. */
  function Reactivated(vs: seq<CoachState>, k: nat): (r: seq<CoachState>)
    requires k < |vs|
    ensures |r| == |vs| && InTrain(r[k]) && Back(r).Some?
  {
    var r := vs[k := vs[k].(returning := false, active := true, x := CatheterX, y := CatheterY)];
    assert TrainFlags(r)[k];
    r
  }

  /** One returning coach: 3 closer to the catheter while it is more than 15
      beyond it; otherwise it rejoins the active train and is placed 35 left of
      the leftmost coach of that train, which it is already part of. */
  function ReturnOne(vs: seq<CoachState>, k: nat): (r: seq<CoachState>)
    requires k < |vs|
    ensures |r| == |vs|
  {
    var c := vs[k];
    if !c.returning then vs
    else if c.x > CatheterX + 15.0 then vs[k := c.(x := c.x - 3.0)]
    else
      var ws := Reactivated(vs, k);
      var b := Back(ws).value;
      ws[k := ws[k].(x := ws[b].x - CoachSpacing, y := ws[b].y)]
  }

  /** The loop of move_returning_coaches over the first `n` coaches. */
  function ReturnUpTo(vs: seq<CoachState>, n: nat): (r: seq<CoachState>)
    requires n <= |vs|
    ensures |r| == |vs|
  {
    if n == 0 then vs else ReturnOne(ReturnUpTo(vs, n - 1), n - 1)
  }

  function ReturnAll(vs: seq<CoachState>): (r: seq<CoachState>)
    ensures |r| == |vs|
  {
    ReturnUpTo(vs, |vs|)
  }

  /** Where a rejoining coach lands: because it is already counted in the active
      train when the back is looked up, it is placed 35 left of the smaller of
      the catheter position and the back of the rest of the train; so it never
      lands right of catheter_x - 35, whatever the train's position. Coaches
      that are not returning are untouched, a returning coach far from the
      catheter moves 3 toward it, and a coach's load never changes. */
  lemma ReturnOneFacts(vs: seq<CoachState>, k: nat)
    requires k < |vs|
    ensures var r := ReturnOne(vs, k);
      && (forall j :: 0 <= j < |vs| && j != k ==> r[j] == vs[j])
      && r[k].medicineCurrent == vs[k].medicineCurrent && r[k].deliveredAmount == vs[k].deliveredAmount
      && (!vs[k].returning ==> r[k] == vs[k])
      && (vs[k].returning && vs[k].x > CatheterX + 15.0 ==> r[k] == vs[k].(x := vs[k].x - 3.0))
      && (vs[k].returning && vs[k].x <= CatheterX + 15.0 ==>
            && InTrain(r[k])
            && r[k].x + CoachSpacing <= CatheterX
            && (forall j :: 0 <= j < |vs| && j != k && InTrain(vs[j]) ==> r[k].x + CoachSpacing <= vs[j].x)
            && (r[k].x + CoachSpacing == CatheterX
                || exists j :: 0 <= j < |vs| && j != k && InTrain(vs[j]) && vs[j].x == r[k].x + CoachSpacing))
  {
    if vs[k].returning && vs[k].x <= CatheterX + 15.0 {
      var ws := Reactivated(vs, k);
      var b := Back(ws).value;
      assert ws[b].x <= ws[k].x;
      if b != k {
        assert InTrain(vs[b]) && vs[b].x == ws[b].x;
      }
    }
  }

  /** The loop touches only returning coaches and keeps every coach valid. */
  lemma {:induction false} ReturnUpToKeepsOk(vs: seq<CoachState>, n: nat, capacity: real)
    requires n <= |vs|
    requires forall k :: 0 <= k < |vs| ==> CoachOk(vs[k], capacity)
    ensures var r := ReturnUpTo(vs, n);
      && (forall k :: 0 <= k < |vs| ==> CoachOk(r[k], capacity))
      && (forall k :: 0 <= k < |vs| ==> r[k].deliveredAmount == vs[k].deliveredAmount)
      && (forall k :: 0 <= k < |vs| && !vs[k].returning ==> r[k] == vs[k])
  {
    if n > 0 {
      var p := ReturnUpTo(vs, n - 1);
      ReturnUpToKeepsOk(vs, n - 1, capacity);
      ReturnOneFacts(p, n - 1);
      if p[n - 1].returning && p[n - 1].x <= CatheterX + 15.0 {
        var ws := Reactivated(p, n - 1);
        assert ws[Back(ws).value].y == CatheterY;
      }
    }
  }

  /** Once every coach is back, the returning coaches stay back. */
  lemma {:induction false} ReturnUpToKeepsBack(vs: seq<CoachState>, n: nat)
    requires n <= |vs| && AllBack(vs)
    ensures AllBack(ReturnUpTo(vs, n))
  {
    if n > 0 {
      var p := ReturnUpTo(vs, n - 1);
      ReturnUpToKeepsBack(vs, n - 1);
      ReturnOneFacts(p, n - 1);
    }
  }

  function ReturnStep(sv: SwarmView): SwarmView {
    sv.(coaches := ReturnAll(sv.coaches))
  }

  // ---------------------------------------------------------------------------
  // evaluate_dissolution, exit_treatment, update

  function EvaluateStep(sv: SwarmView, cfg: Config): SwarmView {
    if sv.state != Evaluating then sv
    else if sv.clot <= 0.0 then sv.(state := Exiting)
    else if sv.total >= cfg.threshold then sv.(state := Exiting)
    else if Leader(sv.coaches).Some? then sv.(state := Approaching)
    else sv.(state := Exiting)
  }

  /** evaluate_dissolution changes only the state and only from EVALUATING: to
      EXITING once the clot is gone or the threshold is reached, otherwise back
      to APPROACHING when there is still an active train, else to EXITING. */
  lemma EvaluateFacts(sv: SwarmView, cfg: Config)
    ensures var r := EvaluateStep(sv, cfg);
      && r == sv.(state := r.state)
      && (sv.state != Evaluating ==> r == sv)
      && (sv.state == Evaluating ==> (r.state == Exiting || r.state == Approaching))
      && (sv.state == Evaluating && (sv.clot <= 0.0 || sv.total >= cfg.threshold) ==> r.state == Exiting)
      && (sv.state == Evaluating && r.state == Approaching <==>
            sv.state == Evaluating && sv.clot > 0.0 && sv.total < cfg.threshold && Leader(sv.coaches).Some?)
  {
  }

  function Retreated(c: CoachState): CoachState {
    if InTrain(c) && c.x > CatheterX + 25.0 then c.(x := c.x - 4.0) else c
  }

  function Retreat(vs: seq<CoachState>): (r: seq<CoachState>)
    ensures |r| == |vs| && forall k :: 0 <= k < |vs| ==> r[k] == Retreated(vs[k])
  {
    seq(|vs|, k requires 0 <= k < |vs| => Retreated(vs[k]))
  }

  function ExitStep(sv: SwarmView): SwarmView {
    if sv.state != Exiting then sv
    else
      var vs := Retreat(sv.coaches);
      sv.(coaches := vs, state := if AllBack(vs) then Complete else Exiting)
  }

  /** exit_treatment acts only while EXITING, moves only coaches of the active
      train right of catheter_x + 25 (by -4), and reaches COMPLETE exactly when
      every coach, returning ones included, is back. */
  lemma ExitFacts(sv: SwarmView)
    ensures var r := ExitStep(sv);
      && r == sv.(coaches := r.coaches, state := r.state)
      && (sv.state != Exiting ==> r == sv)
      && (sv.state == Exiting ==> (r.state == Complete <==> AllBack(r.coaches)))
      && (sv.state == Exiting ==> r.state == Exiting || r.state == Complete)
      && |r.coaches| == |sv.coaches|
      && (forall k :: 0 <= k < |sv.coaches| ==>
            r.coaches[k] == sv.coaches[k] || (InTrain(sv.coaches[k]) && sv.coaches[k].x > CatheterX + 25.0
              && r.coaches[k] == sv.coaches[k].(x := sv.coaches[k].x - 4.0)))
  {
  }

  /** The start of update: the clock. */
  function Clock(sv: SwarmView): SwarmView {
    sv.(time := sv.frame as real / FramesPerSecond)
  }

  /** Moving and delivering, while the swarm is in treatment. */
  function Treat(sv: SwarmView, cfg: Config): SwarmView {
    if Active(sv.state) then DeliverStep(MoveStep(sv), cfg) else sv
  }

  /** The end of update: the medicine effect decays and the frame advances. */
  function Finish(sv: SwarmView): SwarmView {
    sv.(effect := Max(0.0, sv.effect - EffectDecay), frame := sv.frame + 1)
  }

  function UpdateStep(sv: SwarmView, cfg: Config): SwarmView {
    Finish(ExitStep(EvaluateStep(ReturnStep(Treat(Clock(sv), cfg)), cfg)))
  }

  // ---------------------------------------------------------------------------
  // The invariant is kept by every step

  lemma SumDeliveredSame(vs: seq<CoachState>, ws: seq<CoachState>)
    requires |vs| == |ws|
    requires forall k :: 0 <= k < |vs| ==> ws[k].deliveredAmount == vs[k].deliveredAmount
    ensures Sum(Delivered(ws)) == Sum(Delivered(vs))
  {
    assert Delivered(ws) == Delivered(vs);
  }

  lemma InvMove(sv: SwarmView, cfg: Config)
    requires Inv(sv, cfg)
    ensures Inv(MoveStep(sv), cfg)
  {
    var r := MoveStep(sv);
    MoveTrainTransitions(sv);
    SumDeliveredSame(sv.coaches, r.coaches);
  }

  /** Dispensing from coach `l` keeps the running total equal to the coaches' deliveries. */
  lemma DeliveredStep(vs: seq<CoachState>, l: nat, v2: CoachState, total: real, d: real)
    requires l < |vs| && total == Sum(Delivered(vs)) && v2.deliveredAmount == vs[l].deliveredAmount + d
    ensures total + d == Sum(Delivered(vs[l := v2]))
  {
    var ds := Delivered(vs);
    SumUpdate(ds, l, v2.deliveredAmount);
    assert Delivered(vs[l := v2]) == ds[l := v2.deliveredAmount];
  }

  /** A dose dissolves the clot as if it had been part of the total from the start. */
  lemma ClotStep(clot: real, total: real, d: real, perMl: real, after: real)
    requires clot == Remaining(100.0, total, perMl) && total >= 0.0 && d >= 0.0 && perMl >= 0.0
    requires after == total + d
    ensures Remaining(clot, d, perMl) == Remaining(100.0, after, perMl)
  {
    RemainingFacts(100.0, total, d, perMl);
  }

  lemma InvDispense(sv: SwarmView, cfg: Config, l: nat)
    requires Inv(sv, cfg) && cfg.perMl > 0.0 && l < |sv.coaches| && sv.state == Delivering
    ensures Inv(DispenseOutcome(sv, cfg, l), cfg)
  {
    var c := sv.coaches[l];
    var d := DoseOf(c, MlPerFrame);
    var r := DispenseOutcome(sv, cfg, l);
    DispenseConserves(c, MlPerFrame, cfg.capacity);
    assert r.coaches == sv.coaches[l := Dispensed(c, MlPerFrame)];
    assert forall k :: 0 <= k < |r.coaches| ==> CoachOk(r.coaches[k], cfg.capacity);
    var clot := Remaining(sv.clot, d, cfg.perMl);
    var entry := LogEntry(sv.frame, sv.time, c.coachLabel, 0.0, sv.total + d, clot);
    assert r.total == sv.total + d && r.clot == clot && r.log == Record(sv.log, entry, d);
    LoggedStep(sv.log, entry, sv.total, d);
    DeliveredStep(sv.coaches, l, Dispensed(c, MlPerFrame), sv.total, d);
    ClotStep(sv.clot, sv.total, d, cfg.perMl, r.total);
  }

  lemma InvDeliver(sv: SwarmView, cfg: Config)
    requires Inv(sv, cfg) && cfg.perMl > 0.0
    ensures Inv(DeliverStep(sv, cfg), cfg)
  {
    if sv.state == Delivering && Leader(sv.coaches).Some? {
      var l := Leader(sv.coaches).value;
      var c := sv.coaches[l];
      if Abs(TargetX - c.x) <= 15.0 {
        if c.medicineCurrent > 0.0 {
          assert DeliverStep(sv, cfg) == DispenseOutcome(sv, cfg, l);
          InvDispense(sv, cfg, l);
        } else {
          SumDeliveredSame(sv.coaches, sv.coaches[l := TurnedBack(c)]);
        }
      }
    }
  }

  lemma InvReturn(sv: SwarmView, cfg: Config)
    requires Inv(sv, cfg)
    ensures Inv(ReturnStep(sv), cfg)
  {
    ReturnUpToKeepsOk(sv.coaches, |sv.coaches|, cfg.capacity);
    SumDeliveredSame(sv.coaches, ReturnAll(sv.coaches));
    if sv.state == Complete {
      ReturnUpToKeepsBack(sv.coaches, |sv.coaches|);
    }
  }

  lemma InvEvaluate(sv: SwarmView, cfg: Config)
    requires Inv(sv, cfg)
    ensures Inv(EvaluateStep(sv, cfg), cfg)
    ensures EvaluateStep(sv, cfg).state != Evaluating
  {
  }

  lemma InvExit(sv: SwarmView, cfg: Config)
    requires Inv(sv, cfg)
    ensures Inv(ExitStep(sv), cfg)
  {
    if sv.state == Exiting {
      SumDeliveredSame(sv.coaches, Retreat(sv.coaches));
    }
  }

  /** The load handed out never exceeds what the five coaches carried. */
  lemma TotalBounded(sv: SwarmView, cfg: Config)
    requires Inv(sv, cfg)
    ensures 0.0 <= sv.total <= CoachCount as real * cfg.capacity
  {
    SumBounds(Delivered(sv.coaches), cfg.capacity);
  }

  /** The treatment phase keeps the invariant and the clock and never lowers the total. */
  lemma TreatFacts(sv: SwarmView, cfg: Config)
    requires Inv(sv, cfg) && cfg.perMl > 0.0
    ensures var r := Treat(sv, cfg);
      && Inv(r, cfg)
      && r.frame == sv.frame && r.time == sv.time && sv.total <= r.total
      && (!Active(sv.state) ==> r == sv)
  {
    if Active(sv.state) {
      var m := MoveStep(sv);
      InvMove(sv, cfg);
      MoveTrainTransitions(sv);
      InvDeliver(m, cfg);
      DeliverFacts(m, cfg);
    }
  }

  /** The rest of a frame keeps the invariant, the clock, the total, and leaves
      the swarm out of EVALUATING; COMPLETE, once reached, stays. */
  lemma SettleFacts(sv: SwarmView, cfg: Config)
    requires Inv(sv, cfg)
    ensures var r := ExitStep(EvaluateStep(ReturnStep(sv), cfg));
      && Inv(r, cfg)
      && r.frame == sv.frame && r.time == sv.time && r.total == sv.total && r.effect == sv.effect
      && r.state != Evaluating
      && (sv.state == Complete ==> r.state == Complete)
  {
    var s1 := ReturnStep(sv);
    InvReturn(sv, cfg);
    var s2 := EvaluateStep(s1, cfg);
    InvEvaluate(s1, cfg);
    EvaluateFacts(s1, cfg);
    InvExit(s2, cfg);
    ExitFacts(s2);
  }

  /** One frame keeps the invariant, advances the frame by exactly one, keeps the
      medicine effect non-negative, never lowers the total (which stays within
      what the coaches carried) and never raises the clot; no frame ends in
      EVALUATING, and COMPLETE is final. */
  lemma UpdateFacts(sv: SwarmView, cfg: Config)
    requires Inv(sv, cfg) && cfg.perMl > 0.0
    ensures var r := UpdateStep(sv, cfg);
      && Inv(r, cfg)
      && r.frame == sv.frame + 1
      && r.time == sv.frame as real / FramesPerSecond
      && r.effect >= 0.0
      && sv.total <= r.total <= CoachCount as real * cfg.capacity
      && r.clot <= sv.clot
      && r.state != Evaluating
      && (sv.state == Complete ==> r.state == Complete)
  {
    var s0 := Clock(sv);
    var s1 := Treat(s0, cfg);
    TreatFacts(s0, cfg);
    SettleFacts(s1, cfg);
    var s2 := ExitStep(EvaluateStep(ReturnStep(s1), cfg));
    TotalBounded(s2, cfg);
    RemainingMonotone(100.0, sv.total, s2.total, cfg.perMl);
  }

  /** The evaluation and exit states are reached only once the threshold dose
      has been applied. */
  predicate ThresholdReached(sv: SwarmView, cfg: Config) {
    sv.state == Evaluating || sv.state == Exiting || sv.state == Complete ==> sv.total >= cfg.threshold
  }

  /** From the start, where the swarm is ENTERING, every frame keeps the exit
      states behind the threshold: the swarm only leaves delivery through
      EVALUATING, which deliver_medicine_to_clot enters when the total reaches
      the threshold, and the total never decreases. So the fall-back branches of
      evaluate_dissolution (no threshold, clot left) are never taken. */
  lemma UpdateKeepsThreshold(sv: SwarmView, cfg: Config)
    requires Inv(sv, cfg) && cfg.perMl > 0.0 && ThresholdReached(sv, cfg) && sv.state != Evaluating
    ensures ThresholdReached(UpdateStep(sv, cfg), cfg)
    ensures var s := ReturnStep(Treat(Clock(sv), cfg));
      s.state == Evaluating ==> s.total >= cfg.threshold && EvaluateStep(s, cfg).state == Exiting
  {
    var s0 := Clock(sv);
    var s1 := Treat(s0, cfg);
    TreatFacts(s0, cfg);
    if Active(s0.state) {
      DeliverFacts(MoveStep(s0), cfg);
      MoveTrainTransitions(s0);
    }
    var s2 := ReturnStep(s1);
    var s3 := EvaluateStep(s2, cfg);
    EvaluateFacts(s2, cfg);
    ExitFacts(s3);
  }

  // ---------------------------------------------------------------------------
  // The swarm as the script holds it

  /** The five coaches C1..C5 the swarm starts with: fresh, distinct, in a train
      35 apart from the catheter, each full. */
  method MakeCoaches(capacity: real) returns (cs: seq<NanobotCoach>)
    ensures |cs| == CoachCount
    ensures forall k :: 0 <= k < CoachCount ==> fresh(cs[k]) && cs[k].View() == InitialCoach(k, capacity)
    ensures forall a, b :: 0 <= a < b < CoachCount ==> cs[a] != cs[b]
  {
    cs := [];
    var pos: nat := 0;
    while pos < CoachCount
      invariant pos <= CoachCount && |cs| == pos
      invariant forall k :: 0 <= k < pos ==> fresh(cs[k]) && cs[k].View() == InitialCoach(k, capacity)
      invariant forall a, b :: 0 <= a < b < pos ==> cs[a] != cs[b]
    {
      var coach := new NanobotCoach(Labels[pos], pos, CatheterX + pos as real * CoachSpacing, CatheterY, capacity);
      cs := cs + [coach];
      pos := pos + 1;
    }
  }

  class MetroTrainSwarm {
    const coaches: seq<NanobotCoach>
    const medicinePerCoach: real
    const clotRequired: real
    const medicineThreshold: real
    const dissolutionPerMl: real
    const maxFrames: nat
    var time: real
    var frame: nat
    var deliveryLog: seq<LogEntry<real>>
    var clotRemaining: real
    var totalMedicineApplied: real
    var currentState: SwarmState
    var deliveryCycleCount: nat
    var medicineEffect: real

    function Views(): (vs: seq<CoachState>)
      reads coaches
      ensures |vs| == |coaches| && forall k :: 0 <= k < |coaches| ==> vs[k] == coaches[k].View()
    {
      seq(|coaches|, k requires 0 <= k < |coaches| reads coaches => coaches[k].View())
    }

    function Snapshot(): SwarmView
      reads this, coaches
    {
      SwarmView(Views(), clotRemaining, deliveryLog, totalMedicineApplied, currentState,
                deliveryCycleCount, medicineEffect, frame, time)
    }

    function Settings(): Config
      reads this
    {
      Config(medicinePerCoach, dissolutionPerMl, medicineThreshold)
    }

    ghost predicate Distinct() {
      forall a, b :: 0 <= a < b < |coaches| ==> coaches[a] != coaches[b]
    }

    ghost predicate Valid()
      reads this, coaches
    {
      && Distinct()
      && medicinePerCoach > 0.0
      && dissolutionPerMl > 0.0
      && Inv(Snapshot(), Settings())
    }

    constructor (medicinePerCoach: real, clotRequired: real)
      requires medicinePerCoach > 0.0 && clotRequired > 0.0
      ensures Valid()
      ensures Snapshot() == InitialView(medicinePerCoach)
      ensures this.medicinePerCoach == medicinePerCoach && this.clotRequired == clotRequired
      ensures medicineThreshold == clotRequired + 2.0 && dissolutionPerMl == 100.0 / clotRequired
      ensures maxFrames == 2500
    {
      var cs := MakeCoaches(medicinePerCoach);
      coaches := cs;
      this.medicinePerCoach := medicinePerCoach;
      this.clotRequired := clotRequired;
      medicineThreshold := clotRequired + 2.0;
      dissolutionPerMl := 100.0 / clotRequired;
      time, frame, maxFrames := 0.0, 0, 2500;
      deliveryLog, clotRemaining, totalMedicineApplied := [], 100.0, 0.0;
      currentState, deliveryCycleCount, medicineEffect := Entering, 0, 0.0;
      new;
      assert Views() == InitialView(medicinePerCoach).coaches;
      assert Snapshot() == InitialView(medicinePerCoach);
      InitialValid(Settings());
    }

    /** get_active_train, as indices into the coach list. */
    function GetActiveTrain(): (r: seq<nat>)
      reads coaches
      ensures forall k :: 0 <= k < |r| ==> r[k] < |coaches| && coaches[r[k]].active && !coaches[r[k]].returning
      ensures forall k :: 0 <= k < |coaches| && coaches[k].active && !coaches[k].returning ==> k in r
      ensures forall a, b :: 0 <= a < b < |r| ==> coaches[r[a]].x <= coaches[r[b]].x
      ensures forall a, b :: 0 <= a < b < |r| ==> r[a] != r[b]
    {
      ActiveTrain(Views())
    }

    /** get_returning_coaches, as indices into the coach list. */
    function GetReturningCoaches(): (r: seq<nat>)
      reads coaches
      ensures forall k :: 0 <= k < |r| ==> r[k] < |coaches| && coaches[r[k]].returning
      ensures forall k :: 0 <= k < |coaches| && coaches[k].returning ==> k in r
    {
      Members(ReturningFlags(Views()), |coaches|)
    }

    /** get_leader: the rightmost coach of the active train, or None without one. */
    function GetLeader(): (r: Option<nat>)
      reads coaches
      ensures r.None? <==> forall k :: 0 <= k < |coaches| ==> !(coaches[k].active && !coaches[k].returning)
      ensures r.Some? ==> r.value < |coaches| && coaches[r.value].active && !coaches[r.value].returning
      ensures r.Some? ==> forall k :: 0 <= k < |coaches| && coaches[k].active && !coaches[k].returning
                            ==> coaches[k].x <= coaches[r.value].x
    {
      Leader(Views())
    }

    method AdvanceTrain(vx: real)
      requires Distinct()
      modifies coaches
      ensures Views() == Advance(old(Views()), vx)
    {
      var k := 0;
      while k < |coaches|
        invariant 0 <= k <= |coaches|
        invariant forall j :: 0 <= j < k ==> coaches[j].View() == Moved(old(coaches[j].View()), vx)
        invariant forall j :: k <= j < |coaches| ==> coaches[j].View() == old(coaches[j].View())
      {
        if coaches[k].active && !coaches[k].returning {
          coaches[k].UpdatePosition(vx);
        }
        k := k + 1;
      }
    }

    method MoveTrain()
      requires Valid()
      modifies coaches, this
      ensures Valid()
      ensures Snapshot() == MoveStep(old(Snapshot()))
    {
      ghost var before := Snapshot();
      InvMove(before, Settings());
      MoveTrainStep(before);
    }

    /** The branches of move_train, stated on the view. */
    method MoveTrainStep(ghost before: SwarmView)
      requires Distinct() && before == Snapshot()
      modifies coaches, this
      ensures Snapshot() == MoveStep(before)
    {
      var leader := GetLeader();
      if leader.None? {
        return;
      }
      var lx := coaches[leader.value].x;
      if currentState == Entering {
        if lx < CatheterX + 60.0 {
          AdvanceTrain(3.0);
          assert MoveStep(before) == before.(coaches := Advance(before.coaches, 3.0));
        } else {
          SetState(Approaching, before);
          assert MoveStep(before) == before.(state := Approaching);
        }
      } else if currentState == Approaching {
        var distanceToTarget := TargetX - lx;
        if distanceToTarget > 5.0 {
          AdvanceTrain(ApproachSpeed(distanceToTarget));
          assert MoveStep(before) == before.(coaches := Advance(before.coaches, ApproachSpeed(distanceToTarget)));
        } else {
          SetState(Delivering, before);
          assert MoveStep(before) == before.(state := Delivering);
        }
      } else {
        assert MoveStep(before) == before;
      }
      assert Snapshot() == MoveStep(before);
    }

    /** The leader hands out one dose: to the total, the effect, the clot and the
      log, switching to EVALUATING once the threshold is reached. */
    method DispenseFromLeader(l: nat, ghost sv: SwarmView)
      requires Distinct() && l < |coaches| && sv == Snapshot()
      modifies this, coaches[l]
      ensures Snapshot() == DispenseOutcome(sv, Settings(), l)
    {
      ghost var vs := sv.coaches[l := Dispensed(sv.coaches[l], MlPerFrame)];
      var dispensed := DispenseCoach(l, sv.coaches);
      assert Snapshot() == sv.(coaches := vs);
      RecordDose(coaches[l].coachLabel, dispensed, sv.(coaches := vs));
    }

    /** Coach `l` hands out its dose. */
    method DispenseCoach(l: nat, ghost vs: seq<CoachState>) returns (dispensed: real)
      requires Distinct() && l < |coaches| && vs == Views()
      modifies coaches[l]
      ensures dispensed == DoseOf(vs[l], MlPerFrame)
      ensures Views() == vs[l := Dispensed(vs[l], MlPerFrame)]
    {
      dispensed := coaches[l].DispenseMedicine(MlPerFrame);
      assert Views() == vs[l := coaches[l].View()];
    }

    /** The swarm's account of a dose: total, effect, clot, log and state. */
    method RecordDose(coachName: string, dispensed: real, ghost sv: SwarmView)
      requires sv == Snapshot()
      modifies this
      ensures var total, clot := sv.total + dispensed, Remaining(sv.clot, dispensed, dissolutionPerMl);
        Snapshot() == sv.(total := total, effect := sv.effect + dispensed, clot := clot,
                          log := Record(sv.log, LogEntry(sv.frame, sv.time, coachName, 0.0, total, clot), dispensed),
                          state := if total >= medicineThreshold then Evaluating else sv.state)
    {
      ApplyDose(dispensed, sv);
      LogDose(coachName, dispensed, Snapshot());
    }

    /** The dose is added to the total and the effect and dissolves the clot. */
    method ApplyDose(dispensed: real, ghost sv: SwarmView)
      requires sv == Snapshot()
      modifies this
      ensures Snapshot() == sv.(total := sv.total + dispensed, effect := sv.effect + dispensed,
                                clot := Remaining(sv.clot, dispensed, dissolutionPerMl))
    {
      totalMedicineApplied := totalMedicineApplied + dispensed;
      medicineEffect := medicineEffect + dispensed;
      clotRemaining := Remaining(clotRemaining, dispensed, dissolutionPerMl);
      assert Views() == sv.coaches;
    }

    /** The dose is credited in the log with the new total and clot, and the
        swarm turns to EVALUATING once the total reaches the threshold. */
    method LogDose(coachName: string, dispensed: real, ghost sv: SwarmView)
      requires sv == Snapshot()
      modifies this
      ensures Snapshot() == sv.(log := Record(sv.log, LogEntry(sv.frame, sv.time, coachName, 0.0, sv.total, sv.clot), dispensed),
                                state := if sv.total >= medicineThreshold then Evaluating else sv.state)
    {
      var entry := LogEntry(frame, time, coachName, 0.0, totalMedicineApplied, clotRemaining);
      deliveryLog := Record(deliveryLog, entry, dispensed);
      if totalMedicineApplied >= medicineThreshold {
        currentState := Evaluating;
      }
      assert Views() == sv.coaches;
    }

    /** The depleted leader leaves the front and turns back toward the catheter. */
    method TurnBackLeader(l: nat, ghost sv: SwarmView)
      requires Distinct() && l < |coaches| && sv == Snapshot()
      modifies this, coaches[l]
      ensures Snapshot() == sv.(coaches := sv.coaches[l := TurnedBack(sv.coaches[l])],
                                cycles := sv.cycles + 1, state := Approaching)
    {
      var c := coaches[l];
      c.active, c.returning := false, true;
      deliveryCycleCount := deliveryCycleCount + 1;
      currentState := Approaching;
      assert Views() == sv.coaches[l := c.View()];
    }

    method DeliverMedicineToClot()
      requires Valid()
      modifies this, coaches
      ensures Valid()
      ensures Snapshot() == DeliverStep(old(Snapshot()), Settings())
    {
      ghost var before := Snapshot();
      InvDeliver(before, Settings());
      var leader := GetLeader();
      if leader.None? {
        return;
      }
      var l := leader.value;
      if Abs(TargetX - coaches[l].x) <= 15.0 && currentState == Delivering {
        if coaches[l].medicineCurrent > 0.0 {
          DeliverDispenseCase(before, Settings(), l);
          DispenseFromLeader(l, before);
        } else {
          DeliverTurnBackCase(before, Settings(), l);
          TurnBackLeader(l, before);
        }
      } else {
        assert DeliverStep(before, Settings()) == before;
      }
    }

    /** Coach `k` rejoins: active again at the catheter, then placed 35 left of
        the leftmost coach of the active train. */
    method Rejoin(k: nat, ghost vs: seq<CoachState>)
      requires Distinct() && k < |coaches| && vs == Views()
      modifies coaches[k]
      ensures Views() == (var ws := Reactivated(vs, k);
                          ws[k := ws[k].(x := ws[Back(ws).value].x - CoachSpacing, y := ws[Back(ws).value].y)])
    {
      var coach := coaches[k];
      coach.returning, coach.active := false, true;
      coach.x, coach.y := CatheterX, CatheterY;
      assert Views() == Reactivated(vs, k);
      var b := Back(Views()).value;
      coach.x, coach.y := coaches[b].x - CoachSpacing, coaches[b].y;
    }

    /** A returning coach still far from the catheter drives 3 toward it. */
    method DriveBack(k: nat, ghost vs: seq<CoachState>)
      requires Distinct() && k < |coaches| && vs == Views()
      modifies coaches[k]
      ensures Views() == vs[k := vs[k].(x := vs[k].x - 3.0)]
    {
      coaches[k].UpdatePosition(-3.0);
      assert Views() == vs[k := coaches[k].View()];
    }

    /** The loop of move_returning_coaches. */
    method ReturnLoop(ghost vs: seq<CoachState>)
      requires Distinct() && vs == Views()
      modifies coaches
      ensures Views() == ReturnAll(vs)
    {
      var k := 0;
      while k < |coaches|
        invariant 0 <= k <= |coaches|
        invariant Views() == ReturnUpTo(vs, k)
      {
        ReturnCoach(k, Views());
        k := k + 1;
      }
    }

    /** One pass of that loop: coach `k` drives back or rejoins when it is returning. */
    method ReturnCoach(k: nat, ghost vs: seq<CoachState>)
      requires Distinct() && k < |coaches| && vs == Views()
      modifies coaches[k]
      ensures Views() == ReturnOne(vs, k)
    {
      var coach := coaches[k];
      if coach.returning {
        if coach.x > CatheterX + 15.0 {
          DriveBack(k, vs);
        } else {
          Rejoin(k, vs);
        }
      }
    }

    method MoveReturningCoaches()
      requires Valid()
      modifies coaches
      ensures Valid()
      ensures Snapshot() == ReturnStep(old(Snapshot()))
    {
      ghost var before := Snapshot();
      InvReturn(before, Settings());
      ReturnLoop(before.coaches);
      assert Snapshot() == before.(coaches := Views());
    }

    method EvaluateDissolution()
      requires Valid()
      modifies this
      ensures Valid()
      ensures Snapshot() == EvaluateStep(old(Snapshot()), Settings())
    {
      ghost var before := Snapshot();
      InvEvaluate(before, Settings());
      if currentState != Evaluating {
        return;
      }
      var next := Exiting;
      if clotRemaining > 0.0 && totalMedicineApplied < medicineThreshold {
        var active := GetActiveTrain();
        ActiveTrainNonEmpty(before.coaches);
        if |active| > 0 {
          next := Approaching;
        }
      }
      assert next == EvaluateStep(before, Settings()).state;
      SetState(next, before);
    }

    /** Switches the state machine to `next` and touches nothing else. */
    method SetState(next: SwarmState, ghost sv: SwarmView)
      requires sv == Snapshot()
      modifies this
      ensures Snapshot() == sv.(state := next)
    {
      currentState := next;
      assert Views() == sv.coaches;
    }

    /** Every coach of the active train right of catheter_x + 25 moves back by 4. */
    method RetreatTrain(ghost vs: seq<CoachState>)
      requires Distinct() && vs == Views()
      modifies coaches
      ensures Views() == Retreat(vs)
    {
      var k := 0;
      while k < |coaches|
        invariant 0 <= k <= |coaches|
        invariant forall j :: 0 <= j < k ==> coaches[j].View() == Retreated(vs[j])
        invariant forall j :: k <= j < |coaches| ==> coaches[j].View() == vs[j]
      {
        if coaches[k].active && !coaches[k].returning && coaches[k].x > CatheterX + 25.0 {
          coaches[k].UpdatePosition(-4.0);
        }
        k := k + 1;
      }
      assert Views() == Retreat(vs);
    }

    method ExitTreatment()
      requires Valid()
      modifies this, coaches
      ensures Valid()
      ensures Snapshot() == ExitStep(old(Snapshot()))
    {
      ghost var before := Snapshot();
      InvExit(before, Settings());
      if currentState != Exiting {
        return;
      }
      RetreatTrain(before.coaches);
      if AllBack(Views()) {
        currentState := Complete;
      }
      assert Snapshot() == ExitStep(before);
    }

    /** Moving and delivering while in treatment. */
    method TreatmentPhase()
      requires Valid()
      modifies this, coaches
      ensures Valid()
      ensures Snapshot() == Treat(old(Snapshot()), Settings())
    {
      if Active(currentState) {
        MoveTrain();
        DeliverMedicineToClot();
      }
    }

    /** The end of update: the medicine effect decays and the frame advances. */
    method FinishFrame()
      requires Valid()
      modifies this
      ensures Valid()
      ensures Snapshot() == Finish(old(Snapshot()))
    {
      ghost var before := Snapshot();
      medicineEffect := Max(0.0, medicineEffect - EffectDecay);
      frame := frame + 1;
      assert Snapshot() == Finish(before);
    }

    method Update()
      requires Valid()
      modifies this, coaches
      ensures Valid()
      ensures Snapshot() == UpdateStep(old(Snapshot()), Settings())
    {
      ghost var before := Snapshot();
      time := frame as real / FramesPerSecond;
      assert Snapshot() == Clock(before);
      TreatmentPhase();
      MoveReturningCoaches();
      EvaluateDissolution();
      ExitTreatment();
      FinishFrame();
    }

    /** is_complete: once COMPLETE, every coach is back at the catheter. */
    function IsComplete(): (r: bool)
      reads this, coaches
      requires Valid()
      ensures r ==> AllBack(Views())
    {
      currentState == Complete
    }
  }
}
