/** Model of metro_train_final_correct.py: the same five-coach train as the
    enhanced variant, with a single clot reading (`clot_remaining`, in percent)
    that falls by `100 / clot_required` per ml. An empty leader detaches where
    it stands and waits at the clot; once the train is back within 30 of the
    clot every waiting coach snaps onto the back of the train at once.

    As in the enhanced model, each method of the classes is specified by a pure
    step function on a snapshot, and the properties are proved about those. */
module MetroFinalCorrect {
  import opened Basics
  import opened Numeric
  import opened MetroCommon

  // ---------------------------------------------------------------------------
  // Coach colour (get_color)

  datatype Color = LightCoral | LightBlue | SkyBlue | SteelBlue | DarkBlue

  /** How dark a shade is: 4 for dark blue down to 1 for light blue. */
  function Depth(c: Color): nat {
    match c
    case DarkBlue => 4
    case SteelBlue => 3
    case SkyBlue => 2
    case LightBlue => 1
    case LightCoral => 0
  }

  /** Colour of a coach from its waiting flag and its medicine ratio. */
  function ColorOf(atClot: bool, ratio: real): Color {
    if atClot then LightCoral
    else if ratio > 0.75 then LightBlue
    else if ratio > 0.5 then SkyBlue
    else if ratio > 0.25 then SteelBlue
    else DarkBlue
  }

  /** A waiting coach is light coral; a coach in the train darkens as it empties:
      light blue above 75%, dark blue at 25% and below. */
  lemma ColorDarkensAsItEmpties(atClot: bool, r1: real, r2: real)
    requires r1 <= r2
    ensures atClot <==> ColorOf(atClot, r1) == LightCoral
    ensures !atClot ==> 1 <= Depth(ColorOf(atClot, r2)) <= Depth(ColorOf(atClot, r1))
    ensures !atClot && r2 > 0.75 ==> ColorOf(atClot, r2) == LightBlue
    ensures !atClot && r1 <= 0.25 ==> ColorOf(atClot, r1) == DarkBlue
  {
  }

  // ---------------------------------------------------------------------------
  // Clot

  /** `clot_remaining = max(0, clot_remaining - dispensed * dissolution_per_ml)`. */
  function Remaining(clot: real, ml: real, perMl: real): real {
    Max(0.0, clot - ml * perMl)
  }

  /** A non-negative dose keeps the clot in [0, 100] and never raises it,
      lowering it by exactly the dose times the rate while that stays above 0;
      two doses in a row act as one dose of their sum. */
  lemma RemainingFacts(clot: real, a: real, b: real, perMl: real)
    requires 0.0 <= clot <= 100.0 && a >= 0.0 && b >= 0.0 && perMl >= 0.0
    ensures 0.0 <= Remaining(clot, a, perMl) <= clot
    ensures clot >= a * perMl ==> Remaining(clot, a, perMl) == clot - a * perMl
    ensures Remaining(Remaining(clot, a, perMl), b, perMl) == Remaining(clot, a + b, perMl)
  {
  }

  /** A larger total dose leaves no more clot. */
  lemma RemainingMonotone(clot: real, a: real, b: real, perMl: real)
    requires a <= b && perMl >= 0.0
    ensures Remaining(clot, b, perMl) <= Remaining(clot, a, perMl)
  {
    assert a * perMl <= b * perMl;
  }

  /** With `dissolution_per_ml = 100 / clot_required`, a fresh clot is gone
      exactly when `clot_required` ml have reached it. */
  lemma DissolvedExactlyAtRequired(total: real, clotRequired: real)
    requires clotRequired > 0.0 && total >= 0.0
    ensures Remaining(100.0, total, 100.0 / clotRequired) <= 0.0 <==> total >= clotRequired
  {
    var perMl := 100.0 / clotRequired;
    assert perMl * clotRequired == 100.0;
    if total >= clotRequired {
      assert total * perMl >= clotRequired * perMl;
    } else {
      assert total * perMl < clotRequired * perMl;
    }
  }

  // ---------------------------------------------------------------------------
  // Coaches

  /** Snapshot of one coach. */
  datatype CoachState = CoachState(
    coachLabel: string,
    capacity: real,
    x: real,
    y: real,
    medicineCurrent: real,
    deliveredAmount: real,
    inFormation: bool,
    atClot: bool)

  /** Per-coach invariant: the load is conserved and non-negative, the coach is
      either in the train or waiting at the clot, and it stays on the vessel axis. */
  predicate CoachOk(c: CoachState, capacity: real) {
    && c.capacity == capacity
    && c.medicineCurrent >= 0.0 && c.deliveredAmount >= 0.0
    && c.medicineCurrent + c.deliveredAmount == capacity
    && c.inFormation != c.atClot
    && c.y == CatheterY
  }

  /** `dispense_medicine`: hand out at most `ml` of what is left. */
  function DoseOf(c: CoachState, ml: real): real {
    Min(ml, c.medicineCurrent)
  }

  /** The coach after handing out its dose. */
  function Dispensed(c: CoachState, ml: real): CoachState {
    c.(medicineCurrent := c.medicineCurrent - DoseOf(c, ml), deliveredAmount := c.deliveredAmount + DoseOf(c, ml))
  }

  /** A dispense of a non-negative amount hands out `min(ml, medicine_current)`,
      never leaves the load negative and conserves load plus delivered amount. */
  lemma DispenseConserves(c: CoachState, ml: real, capacity: real)
    requires CoachOk(c, capacity) && ml >= 0.0
    ensures var c2, d := Dispensed(c, ml), DoseOf(c, ml);
      && 0.0 <= d <= ml && d <= c.medicineCurrent
      && (d == ml || d == c.medicineCurrent)
      && CoachOk(c2, capacity)
      && c2.medicineCurrent == c.medicineCurrent - d
      && c2 == c.(medicineCurrent := c2.medicineCurrent, deliveredAmount := c2.deliveredAmount)
  {
  }

  class NanobotCoach {
    const coachLabel: string
    const pos: nat
    const medicineCapacity: real
    var x: real
    var y: real
    var medicineCurrent: real
    var deliveredAmount: real
    var inFormation: bool
    var atClot: bool

    function View(): CoachState
      reads this
    {
      CoachState(coachLabel, medicineCapacity, x, y, medicineCurrent, deliveredAmount, inFormation, atClot)
    }

    constructor (labelText: string, initialPosition: nat, x0: real, y0: real, capacity: real)
      ensures View() == CoachState(labelText, capacity, x0, y0, capacity, 0.0, true, false)
      ensures pos == initialPosition
    {
      coachLabel, pos, medicineCapacity := labelText, initialPosition, capacity;
      x, y := x0, y0;
      medicineCurrent, deliveredAmount := capacity, 0.0;
      inFormation, atClot := true, false;
    }

    method UpdatePosition(vx: real)
      modifies this
      ensures View() == old(View()).(x := old(x) + vx)
    {
      x := x + vx;
    }

    method DispenseMedicine(mlPerFrame: real) returns (dispensed: real)
      modifies this
      ensures dispensed == DoseOf(old(View()), mlPerFrame)
      ensures View() == Dispensed(old(View()), mlPerFrame)
    {
      dispensed := Min(mlPerFrame, medicineCurrent);
      medicineCurrent := medicineCurrent - dispensed;
      deliveredAmount := deliveredAmount + dispensed;
    }

    function GetColor(): (r: Color)
      reads this
      requires medicineCapacity != 0.0
    {
      ColorOf(atClot, medicineCurrent / medicineCapacity)
    }
  }

  // ---------------------------------------------------------------------------
  // Views of the whole train

  function Xs(vs: seq<CoachState>): (r: seq<real>)
    ensures |r| == |vs| && forall k :: 0 <= k < |vs| ==> r[k] == vs[k].x
  {
    seq(|vs|, k requires 0 <= k < |vs| => vs[k].x)
  }

  function Formed(vs: seq<CoachState>): (r: seq<bool>)
    ensures |r| == |vs| && forall k :: 0 <= k < |vs| ==> r[k] == vs[k].inFormation
  {
    seq(|vs|, k requires 0 <= k < |vs| => vs[k].inFormation)
  }

  function WaitingFlags(vs: seq<CoachState>): (r: seq<bool>)
    ensures |r| == |vs| && forall k :: 0 <= k < |vs| ==> r[k] == vs[k].atClot
  {
    seq(|vs|, k requires 0 <= k < |vs| => vs[k].atClot)
  }

  function Delivered(vs: seq<CoachState>): (r: seq<real>)
    ensures |r| == |vs| && forall k :: 0 <= k < |vs| ==> r[k] == vs[k].deliveredAmount
  {
    seq(|vs|, k requires 0 <= k < |vs| => vs[k].deliveredAmount)
  }

  /** The leader: the rightmost coach of the train. */
  function Leader(vs: seq<CoachState>): Option<nat> {
    FirstMax(Xs(vs), Formed(vs))
  }

  /** The leftmost coach of the train. */
  function Back(vs: seq<CoachState>): Option<nat> {
    FirstMin(Xs(vs), Formed(vs))
  }

  predicate NoneWaiting(vs: seq<CoachState>) {
    forall k :: 0 <= k < |vs| ==> !vs[k].atClot
  }

  /** Every coach of the train is back at the catheter (x <= catheter_x + 25). */
  predicate AllBack(vs: seq<CoachState>) {
    forall k :: 0 <= k < |vs| ==> vs[k].inFormation ==> vs[k].x <= CatheterX + 25.0
  }

  /** get_formation (as coach indices): exactly the coaches of the train, sorted by x. */
  function FormationOrder(vs: seq<CoachState>): (r: seq<nat>)
    ensures forall k :: 0 <= k < |r| ==> r[k] < |vs| && vs[r[k]].inFormation
    ensures forall k :: 0 <= k < |vs| && vs[k].inFormation ==> k in r
    ensures forall a, b :: 0 <= a < b < |r| ==> r[a] != r[b]
    ensures forall a, b :: 0 <= a < b < |r| ==> vs[r[a]].x <= vs[r[b]].x
    ensures forall a, b :: 0 <= a < b < |r| && vs[r[a]].x == vs[r[b]].x ==> r[a] < r[b]
  {
    var r := SortedMembers(Formed(vs), Xs(vs));
    forall a, b | 0 <= a < b < |r| ensures vs[r[a]].x <= vs[r[b]].x {
      assert Xs(vs)[r[a]] <= Xs(vs)[r[b]];
    }
    r
  }

  /** The whole swarm. */
  datatype SwarmView = SwarmView(
    coaches: seq<CoachState>,
    clot: real,
    log: seq<LogEntry<real>>,
    total: real,
    state: SwarmState,
    cycles: nat,
    effect: real,
    frame: nat,
    time: real,
    treatmentComplete: bool)

  /** What every step keeps: each coach is valid, the clot is a fresh clot after
      the total dose, the log and the coaches account for the same total, the
      effect is non-negative, the exit states are reached only through the
      dissolution check (which needs a dissolved clot), and COMPLETE only with the
      whole train back and nobody waiting. */
  predicate Inv(sv: SwarmView, capacity: real, perMl: real) {
    && |sv.coaches| == CoachCount
    && (forall k :: 0 <= k < |sv.coaches| ==> CoachOk(sv.coaches[k], capacity))
    && sv.total == LogTotal(sv.log)
    && sv.total == Sum(Delivered(sv.coaches))
    && sv.total >= 0.0
    && sv.clot == Remaining(100.0, sv.total, perMl)
    && sv.effect >= 0.0
    && (sv.state == Exiting || sv.state == Complete ==> sv.treatmentComplete)
    && (sv.treatmentComplete ==> sv.clot <= 0.0)
    && sv.state != Evaluating
    && (sv.state == Complete ==> AllBack(sv.coaches) && NoneWaiting(sv.coaches))
  }

  function InitialCoach(k: nat, capacity: real): CoachState
    requires k < CoachCount
  {
    CoachState(Labels[k], capacity, CatheterX + k as real * CoachSpacing, CatheterY, capacity, 0.0, true, false)
  }

  function InitialView(capacity: real): SwarmView {
    SwarmView(seq(CoachCount, k requires 0 <= k < CoachCount => InitialCoach(k, capacity)),
              100.0, [], 0.0, Entering, 0, 0.0, 0, 0.0, false)
  }

  /** The swarm starts valid: C1..C5 in a train 35 apart from the catheter, C5 in front. */
  lemma InitialValid(capacity: real, perMl: real)
    requires capacity >= 0.0
    ensures Inv(InitialView(capacity), capacity, perMl)
    ensures Leader(InitialView(capacity).coaches) == Some(CoachCount - 1)
  {
    var vs := InitialView(capacity).coaches;
    SumBounds(Delivered(vs), 0.0);
    var xs := Xs(vs);
    assert xs == [50.0, 85.0, 120.0, 155.0, 190.0];
  }

  // ---------------------------------------------------------------------------
  // move_formation

  function Moved(c: CoachState, vx: real): CoachState {
    if c.inFormation then c.(x := c.x + vx) else c
  }

  /** Every coach of the train moves by `vx`. */
  function Advance(vs: seq<CoachState>, vx: real): (r: seq<CoachState>)
    ensures |r| == |vs| && forall k :: 0 <= k < |vs| ==> r[k] == Moved(vs[k], vx)
  {
    seq(|vs|, k requires 0 <= k < |vs| => Moved(vs[k], vx))
  }

  /** Moving the train keeps the gaps between its coaches, leaves waiting
      coaches where they are, and keeps the same leader and the same back coach. */
  lemma AdvanceKeepsShape(vs: seq<CoachState>, vx: real)
    ensures var r := Advance(vs, vx);
      && (forall a, b :: 0 <= a < |vs| && 0 <= b < |vs| && vs[a].inFormation && vs[b].inFormation
            ==> r[a].x - r[b].x == vs[a].x - vs[b].x)
      && (forall k :: 0 <= k < |vs| && !vs[k].inFormation ==> r[k] == vs[k])
      && Leader(r) == Leader(vs) && Back(r) == Back(vs)
  {
    var r := Advance(vs, vx);
    assert Formed(r) == Formed(vs);
    FirstMaxShift(Xs(vs), Xs(r), Formed(vs), vx, |vs|);
    FirstMinShift(Xs(vs), Xs(r), Formed(vs), vx, |vs|);
  }

  function MoveStep(sv: SwarmView): SwarmView {
    match Leader(sv.coaches)
    case None => sv
    case Some(l) =>
      var lx := sv.coaches[l].x;
      if sv.state == Entering then
        if lx < CatheterX + 60.0 then sv.(coaches := Advance(sv.coaches, 3.0)) else sv.(state := Approaching)
      else if sv.state == Approaching then
        if TargetX - lx > 5.0 then sv.(coaches := Advance(sv.coaches, ApproachSpeed(TargetX - lx)))
        else sv.(state := Delivering)
      else sv
  }

  /** move_formation changes only the train's positions and the state:
      ENTERING becomes APPROACHING once the leader is 60 past the catheter,
      APPROACHING becomes DELIVERING once the leader is within 5 of the clot, and
      otherwise the whole train advances by one speed of the schedule (3 when
      entering), the step never carrying the leader past the clot. */
  lemma MoveFormationTransitions(sv: SwarmView)
    ensures var r := MoveStep(sv);
      && r == sv.(coaches := r.coaches, state := r.state)
      && (r.state == sv.state || (sv.state == Entering && r.state == Approaching)
          || (sv.state == Approaching && r.state == Delivering))
      && (r.state != sv.state ==> r.coaches == sv.coaches && Leader(sv.coaches).Some?)
      && (sv.state == Entering && r.state == Approaching
          ==> sv.coaches[Leader(sv.coaches).value].x >= CatheterX + 60.0)
      && (sv.state == Approaching && r.state == Delivering
          ==> TargetX - sv.coaches[Leader(sv.coaches).value].x <= 5.0)
      && (r.coaches != sv.coaches ==> exists vx :: 0.0 < vx <= 4.0 && r.coaches == Advance(sv.coaches, vx))
      && (r.coaches != sv.coaches && sv.state == Approaching
          ==> r.coaches[Leader(sv.coaches).value].x < TargetX)
      && (sv.state != Entering && sv.state != Approaching ==> r == sv)
  {
    match Leader(sv.coaches)
    case None =>
    case Some(l) =>
      var lx := sv.coaches[l].x;
      if sv.state == Entering && lx < CatheterX + 60.0 {
        assert MoveStep(sv).coaches == Advance(sv.coaches, 3.0);
      } else if sv.state == Approaching && TargetX - lx > 5.0 {
        var vx := ApproachSpeed(TargetX - lx);
        assert MoveStep(sv).coaches == Advance(sv.coaches, vx);
      }
  }

  // ---------------------------------------------------------------------------
  // deliver_medicine_to_clot

  /** The empty leader leaves the train where it stands and waits at the clot. */
  function Detached(c: CoachState): CoachState {
    c.(inFormation := false, atClot := true)
  }

  /** The swarm's account of a dose `d` handed out by `coachName`: the total,
      the effect, the clot and the log. */
  function Booked(sv: SwarmView, coachName: string, d: real, perMl: real): SwarmView {
    var total := sv.total + d;
    var clot := Remaining(sv.clot, d, perMl);
    sv.(total := total, effect := sv.effect + d, clot := clot,
        log := Record(sv.log, LogEntry(sv.frame, sv.time, coachName, 0.0, total, clot), d))
  }

  function DeliverStep(sv: SwarmView, perMl: real): SwarmView {
    if sv.state != Delivering || sv.clot <= 0.0 then sv
    else match Leader(sv.coaches)
      case None => sv
      case Some(l) =>
        var c := sv.coaches[l];
        if Abs(TargetX - c.x) > 15.0 then sv
        else if c.medicineCurrent > 0.0 then
          Booked(sv.(coaches := sv.coaches[l := Dispensed(c, MlPerFrame)]), c.coachLabel, DoseOf(c, MlPerFrame), perMl)
        else
          sv.(coaches := sv.coaches[l := Detached(c)], cycles := sv.cycles + 1, state := Approaching)
  }

  /** deliver_medicine_to_clot does nothing unless DELIVERING with clot left; a
      delivery adds at most 0.05 ml to the total and the effect and lowers the
      clot by that dose; an empty leader leaves the train without moving and
      sends the train back to APPROACHING, one delivery cycle later. */
  lemma DeliverFacts(sv: SwarmView, perMl: real)
    ensures var r := DeliverStep(sv, perMl);
      && ((sv.state != Delivering || sv.clot <= 0.0) ==> r == sv)
      && 0.0 <= r.total - sv.total <= MlPerFrame
      && (r.total != sv.total ==> (r.clot == Remaining(sv.clot, r.total - sv.total, perMl)
                                    && r.effect == sv.effect + (r.total - sv.total) && r.state == sv.state && r.cycles == sv.cycles))
      && (r.cycles != sv.cycles ==>
            && r.cycles == sv.cycles + 1 && r.state == Approaching && r.total == sv.total && r.log == sv.log
            && Leader(sv.coaches).Some?
            && var l := Leader(sv.coaches).value;
               && r.coaches == sv.coaches[l := sv.coaches[l].(inFormation := false, atClot := true)]
               && r.coaches[l].x == sv.coaches[l].x && r.coaches[l].y == sv.coaches[l].y)
      && (r != sv ==> r.total != sv.total || r.cycles != sv.cycles)
  {
  }

  /** The two acting cases of DeliverStep, one at a time. */
  lemma DeliverDispenseCase(sv: SwarmView, perMl: real, l: nat)
    requires sv.state == Delivering && sv.clot > 0.0 && Leader(sv.coaches) == Some(l)
    requires Abs(TargetX - sv.coaches[l].x) <= 15.0 && sv.coaches[l].medicineCurrent > 0.0
    ensures DeliverStep(sv, perMl) == Booked(sv.(coaches := sv.coaches[l := Dispensed(sv.coaches[l], MlPerFrame)]),
                                             sv.coaches[l].coachLabel, DoseOf(sv.coaches[l], MlPerFrame), perMl)
  {
  }

  lemma DeliverDetachCase(sv: SwarmView, perMl: real, l: nat)
    requires sv.state == Delivering && sv.clot > 0.0 && Leader(sv.coaches) == Some(l)
    requires Abs(TargetX - sv.coaches[l].x) <= 15.0 && sv.coaches[l].medicineCurrent <= 0.0
    ensures DeliverStep(sv, perMl) == sv.(coaches := sv.coaches[l := Detached(sv.coaches[l])],
                                          cycles := sv.cycles + 1, state := Approaching)
  {
  }

  // ---------------------------------------------------------------------------
  // attach_waiting_coaches

  /** A waiting coach snaps onto `p` and rejoins the train. */
  function Rejoined(c: CoachState, p: Point): CoachState {
    if c.atClot then c.(atClot := false, inFormation := true, x := p.x, y := p.y) else c
  }

  function RejoinAll(vs: seq<CoachState>, p: Point): (r: seq<CoachState>)
    ensures |r| == |vs| && forall k :: 0 <= k < |vs| ==> r[k] == Rejoined(vs[k], p)
  {
    seq(|vs|, k requires 0 <= k < |vs| => Rejoined(vs[k], p))
  }

  /** The place of the rejoining coaches: 35 behind the back of the train as it
      was when attach_waiting_coaches started. */
  function BehindBack(vs: seq<CoachState>, b: nat): Point
    requires b < |vs|
  {
    Point(vs[b].x - CoachSpacing, vs[b].y)
  }

  function AttachStep(sv: SwarmView): SwarmView {
    var vs := sv.coaches;
    if NoneWaiting(vs) then sv
    else match (Leader(vs), Back(vs))
      case (Some(l), Some(b)) =>
        if Abs(TargetX - vs[l].x) > 30.0 then sv
        else sv.(coaches := RejoinAll(vs, BehindBack(vs, b)))
      case _ => sv
  }

  /** Rejoining puts every waiting coach 35 behind the back coach, so behind
      every coach of the train, and leaves the train's coaches where they are. */
  lemma RejoinFacts(vs: seq<CoachState>, b: nat)
    requires Back(vs) == Some(b)
    ensures var r := RejoinAll(vs, BehindBack(vs, b));
      && NoneWaiting(r)
      && (forall k :: 0 <= k < |vs| && !vs[k].atClot ==> r[k] == vs[k])
      && (forall k :: 0 <= k < |vs| && vs[k].atClot ==>
            && r[k].inFormation && r[k].x == vs[b].x - CoachSpacing && r[k].y == vs[b].y
            && (forall j :: 0 <= j < |vs| && vs[j].inFormation ==> r[k].x + CoachSpacing <= vs[j].x))
  {
  }

  /** The coaches that rejoin behind the train do not take over the lead. */
  lemma RejoinKeepsLeader(vs: seq<CoachState>, l: nat, b: nat)
    requires Leader(vs) == Some(l) && Back(vs) == Some(b)
    requires forall k :: 0 <= k < |vs| ==> vs[k].inFormation != vs[k].atClot
    ensures Leader(RejoinAll(vs, BehindBack(vs, b))) == Some(l)
  {
    var ws := RejoinAll(vs, BehindBack(vs, b));
    assert vs[b].x <= vs[l].x;
    FirstMaxUnique(Xs(ws), Formed(ws), |ws|, l);
  }

  /** attach_waiting_coaches changes only coaches: when there is a train whose
      leader is within 30 of the clot, every waiting coach rejoins it, placed 35
      behind the back coach, so nobody waits any more and the new coaches sit
      behind the whole train; the coaches of the train do not move and the
      leader stays the leader. Otherwise nothing changes. */
  lemma AttachFacts(sv: SwarmView)
    requires forall k :: 0 <= k < |sv.coaches| ==> sv.coaches[k].inFormation != sv.coaches[k].atClot
    ensures var r := AttachStep(sv);
      && r == sv.(coaches := r.coaches)
      && Leader(r.coaches) == Leader(sv.coaches)
      && (r != sv ==>
            && Leader(sv.coaches).Some? && Back(sv.coaches).Some?
            && Abs(TargetX - sv.coaches[Leader(sv.coaches).value].x) <= 30.0
            && r.coaches == RejoinAll(sv.coaches, BehindBack(sv.coaches, Back(sv.coaches).value)))
      && ((NoneWaiting(sv.coaches) || Leader(sv.coaches).None?) ==> r == sv)
  {
    var vs := sv.coaches;
    if !NoneWaiting(vs) && Leader(vs).Some? && Back(vs).Some? {
      var l, b := Leader(vs).value, Back(vs).value;
      if Abs(TargetX - vs[l].x) <= 30.0 {
        RejoinKeepsLeader(vs, l, b);
      }
    }
  }

  // ---------------------------------------------------------------------------
  // check_clot_dissolved, exit_treatment, update

  function CheckStep(sv: SwarmView): SwarmView {
    if sv.clot <= 0.0 then sv.(treatmentComplete := true, state := Exiting) else sv
  }

  /** check_clot_dissolved marks the treatment complete and switches to EXITING
      exactly when the clot is gone, and changes nothing otherwise. */
  lemma CheckFacts(sv: SwarmView)
    ensures sv.clot <= 0.0 ==> CheckStep(sv) == sv.(state := Exiting, treatmentComplete := true)
    ensures sv.clot > 0.0 ==> CheckStep(sv) == sv
  {
  }

  function Retreated(c: CoachState): CoachState {
    if c.inFormation && c.x > CatheterX + 25.0 then c.(x := c.x - 4.0) else c
  }

  function Retreat(vs: seq<CoachState>): (r: seq<CoachState>)
    ensures |r| == |vs| && forall k :: 0 <= k < |vs| ==> r[k] == Retreated(vs[k])
  {
    seq(|vs|, k requires 0 <= k < |vs| => Retreated(vs[k]))
  }

  function ExitStep(sv: SwarmView): SwarmView {
    if sv.state != Exiting then sv
    else
      var vs := Retreat(sv.coaches);
      sv.(coaches := vs, state := if AllBack(vs) && NoneWaiting(vs) then Complete else Exiting)
  }

  /** exit_treatment acts only while EXITING, moves only coaches of the train
      right of catheter_x + 25 (by -4), and reaches COMPLETE only with the whole
      train back and nobody waiting. */
  lemma ExitFacts(sv: SwarmView)
    ensures var r := ExitStep(sv);
      && (sv.state != Exiting ==> r == sv)
      && (sv.state == Exiting ==> r.state == Exiting || r.state == Complete)
      && (r.state == Complete && sv.state == Exiting ==> AllBack(r.coaches) && NoneWaiting(r.coaches))
      && (sv.state == Exiting && AllBack(sv.coaches) && NoneWaiting(sv.coaches) ==> r.state == Complete)
      && |r.coaches| == |sv.coaches|
      && (forall k :: 0 <= k < |sv.coaches| ==>
            r.coaches[k] == sv.coaches[k] || (sv.coaches[k].inFormation && sv.coaches[k].x > CatheterX + 25.0
              && r.coaches[k] == sv.coaches[k].(x := sv.coaches[k].x - 4.0)))
  {
    if sv.state == Exiting && AllBack(sv.coaches) && NoneWaiting(sv.coaches) {
      assert Retreat(sv.coaches) == sv.coaches;
    }
  }

  /** The start of update: the clock, and the dissolution check once the clot is gone. */
  function Prepare(sv: SwarmView): SwarmView {
    var s0 := sv.(time := sv.frame as real / FramesPerSecond);
    if s0.clot <= 0.0 then CheckStep(s0) else s0
  }

  /** Moving, delivering and attaching, while the swarm is in treatment. */
  function Treat(sv: SwarmView, perMl: real): SwarmView {
    if Active(sv.state) then AttachStep(DeliverStep(MoveStep(sv), perMl)) else sv
  }

  /** The end of update: the medicine effect decays and the frame advances. */
  function Finish(sv: SwarmView): SwarmView {
    sv.(effect := Max(0.0, sv.effect - EffectDecay), frame := sv.frame + 1)
  }

  function UpdateStep(sv: SwarmView, perMl: real): SwarmView {
    Finish(ExitStep(Treat(Prepare(sv), perMl)))
  }

  // ---------------------------------------------------------------------------
  // The invariant is kept by every step

  lemma SumDeliveredSame(vs: seq<CoachState>, ws: seq<CoachState>)
    requires |vs| == |ws|
    requires forall k :: 0 <= k < |vs| ==> ws[k].deliveredAmount == vs[k].deliveredAmount
    ensures Sum(Delivered(ws)) == Sum(Delivered(vs))
  {
    assert Delivered(ws) == Delivered(vs);
  }

  lemma InvMove(sv: SwarmView, capacity: real, perMl: real)
    requires Inv(sv, capacity, perMl)
    ensures Inv(MoveStep(sv), capacity, perMl)
  {
    var r := MoveStep(sv);
    MoveFormationTransitions(sv);
    SumDeliveredSame(sv.coaches, r.coaches);
  }

  /** Dispensing from coach `l` keeps the running total equal to the coaches' deliveries. */
  lemma DeliveredStep(vs: seq<CoachState>, l: nat, v2: CoachState, total: real, d: real)
    requires l < |vs| && total == Sum(Delivered(vs)) && v2.deliveredAmount == vs[l].deliveredAmount + d
    ensures total + d == Sum(Delivered(vs[l := v2]))
  {
    var ds := Delivered(vs);
    SumUpdate(ds, l, v2.deliveredAmount);
    assert Delivered(vs[l := v2]) == ds[l := v2.deliveredAmount];
  }

  /** Booking a non-negative dose keeps the log, the clot and the effect in step
      with the running total, and changes nothing else. */
  lemma BookedKeeps(sv: SwarmView, coachName: string, d: real, perMl: real)
    requires sv.total == LogTotal(sv.log) && sv.total >= 0.0 && sv.clot == Remaining(100.0, sv.total, perMl)
    requires sv.effect >= 0.0 && d >= 0.0 && perMl >= 0.0
    ensures var r := Booked(sv, coachName, d, perMl);
      && r.total == sv.total + d && r.total == LogTotal(r.log)
      && r.clot == Remaining(100.0, r.total, perMl) && r.clot <= sv.clot && r.effect >= 0.0
      && r == sv.(total := r.total, effect := r.effect, clot := r.clot, log := r.log)
  {
    var clot := Remaining(sv.clot, d, perMl);
    var entry := LogEntry(sv.frame, sv.time, coachName, 0.0, sv.total + d, clot);
    BookedShape(sv, coachName, d, perMl);
    LoggedStep(sv.log, entry, sv.total, d);
    ClotStep(sv.clot, sv.total, d, perMl, sv.total + d);
  }

  /** `Booked` spelled out field by field. */
  lemma BookedShape(sv: SwarmView, coachName: string, d: real, perMl: real)
    ensures var clot := Remaining(sv.clot, d, perMl);
      Booked(sv, coachName, d, perMl)
        == sv.(total := sv.total + d, effect := sv.effect + d, clot := clot,
               log := Record(sv.log, LogEntry(sv.frame, sv.time, coachName, 0.0, sv.total + d, clot), d))
  {
  }

  /** A dose dissolves the clot as if it had been part of the total from the start. */
  lemma ClotStep(clot: real, total: real, d: real, perMl: real, after: real)
    requires clot == Remaining(100.0, total, perMl) && total >= 0.0 && d >= 0.0 && perMl >= 0.0
    requires after == total + d
    ensures Remaining(clot, d, perMl) == Remaining(100.0, after, perMl)
    ensures Remaining(clot, d, perMl) <= clot
  {
    RemainingFacts(100.0, total, d, perMl);
  }

  lemma InvDispense(sv: SwarmView, capacity: real, perMl: real, l: nat)
    requires Inv(sv, capacity, perMl) && perMl > 0.0 && l < |sv.coaches| && sv.state == Delivering
    ensures var c := sv.coaches[l];
      Inv(Booked(sv.(coaches := sv.coaches[l := Dispensed(c, MlPerFrame)]), c.coachLabel, DoseOf(c, MlPerFrame), perMl),
          capacity, perMl)
  {
    var c := sv.coaches[l];
    var d := DoseOf(c, MlPerFrame);
    var sv1 := sv.(coaches := sv.coaches[l := Dispensed(c, MlPerFrame)]);
    DispenseConserves(c, MlPerFrame, capacity);
    assert forall k :: 0 <= k < |sv1.coaches| ==> CoachOk(sv1.coaches[k], capacity);
    DeliveredStep(sv.coaches, l, Dispensed(c, MlPerFrame), sv.total, d);
    BookedKeeps(sv1, c.coachLabel, d, perMl);
  }

  lemma InvDeliver(sv: SwarmView, capacity: real, perMl: real)
    requires Inv(sv, capacity, perMl) && perMl > 0.0
    ensures Inv(DeliverStep(sv, perMl), capacity, perMl)
  {
    if sv.state == Delivering && sv.clot > 0.0 && Leader(sv.coaches).Some? {
      var l := Leader(sv.coaches).value;
      var c := sv.coaches[l];
      if Abs(TargetX - c.x) <= 15.0 {
        if c.medicineCurrent > 0.0 {
          InvDispense(sv, capacity, perMl, l);
        } else {
          SumDeliveredSame(sv.coaches, sv.coaches[l := Detached(c)]);
        }
      }
    }
  }

  lemma InvAttach(sv: SwarmView, capacity: real, perMl: real)
    requires Inv(sv, capacity, perMl)
    ensures Inv(AttachStep(sv), capacity, perMl)
  {
    var vs := sv.coaches;
    if !NoneWaiting(vs) && Leader(vs).Some? && Back(vs).Some? {
      var b := Back(vs).value;
      var ws := RejoinAll(vs, BehindBack(vs, b));
      SumDeliveredSame(vs, ws);
      assert forall k :: 0 <= k < |ws| ==> CoachOk(ws[k], capacity);
    }
  }

  lemma InvExit(sv: SwarmView, capacity: real, perMl: real)
    requires Inv(sv, capacity, perMl)
    ensures Inv(ExitStep(sv), capacity, perMl)
  {
    if sv.state == Exiting {
      SumDeliveredSame(sv.coaches, Retreat(sv.coaches));
    }
  }

  /** The treatment steps never touch the frame counter, the clock or the
      dissolution flag. */
  lemma StepsKeepClock(sv: SwarmView, perMl: real)
    ensures MoveStep(sv).frame == sv.frame && MoveStep(sv).time == sv.time
    ensures DeliverStep(sv, perMl).frame == sv.frame && DeliverStep(sv, perMl).time == sv.time
    ensures AttachStep(sv).frame == sv.frame && AttachStep(sv).time == sv.time
    ensures ExitStep(sv).frame == sv.frame && ExitStep(sv).time == sv.time && ExitStep(sv).total == sv.total
    ensures ExitStep(sv).effect == sv.effect && ExitStep(sv).clot == sv.clot
  {
  }

  /** The load handed out never exceeds what the five coaches carried. */
  lemma TotalBounded(sv: SwarmView, capacity: real, perMl: real)
    requires Inv(sv, capacity, perMl)
    ensures 0.0 <= sv.total <= CoachCount as real * capacity
  {
    SumBounds(Delivered(sv.coaches), capacity);
  }

  /** The treatment phase keeps the invariant, the clock and the dissolution
      flag, and never lowers the total; outside treatment it does nothing. */
  lemma TreatFacts(sv: SwarmView, capacity: real, perMl: real)
    requires Inv(sv, capacity, perMl) && perMl > 0.0
    ensures var r := Treat(sv, perMl);
      && Inv(r, capacity, perMl)
      && r.frame == sv.frame && r.time == sv.time && r.treatmentComplete == sv.treatmentComplete
      && sv.total <= r.total
      && (!Active(sv.state) ==> r == sv)
  {
    if Active(sv.state) {
      var m := MoveStep(sv);
      var d := DeliverStep(m, perMl);
      InvMove(sv, capacity, perMl);
      InvDeliver(m, capacity, perMl);
      InvAttach(d, capacity, perMl);
      MoveFormationTransitions(sv);
      DeliverFacts(m, perMl);
      AttachFacts(d);
    }
  }

  /** The start of a frame keeps the invariant and sets the clock; with the
      clot gone it leaves the swarm EXITING with the treatment marked complete. */
  lemma PrepareFacts(sv: SwarmView, capacity: real, perMl: real)
    requires Inv(sv, capacity, perMl)
    ensures var r := Prepare(sv);
      && Inv(r, capacity, perMl)
      && r == sv.(time := sv.frame as real / FramesPerSecond, state := r.state, treatmentComplete := r.treatmentComplete)
      && (sv.clot <= 0.0 ==> r.state == Exiting && r.treatmentComplete)
  {
  }

  /** One frame keeps the invariant, advances the frame by exactly one, keeps the
      medicine effect non-negative, never raises the clot and never lowers the
      total; once the clot has dissolved at the start of a frame, no medicine is
      applied any more and the swarm is EXITING or COMPLETE with the treatment
      marked complete. */
  lemma UpdateFacts(sv: SwarmView, capacity: real, perMl: real)
    requires Inv(sv, capacity, perMl) && perMl > 0.0
    ensures var r := UpdateStep(sv, perMl);
      && Inv(r, capacity, perMl)
      && r.frame == sv.frame + 1
      && r.time == sv.frame as real / FramesPerSecond
      && r.effect >= 0.0
      && sv.total <= r.total && r.clot <= sv.clot
      && (sv.clot <= 0.0 ==> (r.state == Exiting || r.state == Complete) && r.treatmentComplete && r.total == sv.total)
      && (r.state == Complete ==> AllBack(r.coaches) && NoneWaiting(r.coaches))
  {
    var s1 := Prepare(sv);
    PrepareFacts(sv, capacity, perMl);
    var s2 := Treat(s1, perMl);
    TreatFacts(s1, capacity, perMl);
    InvExit(s2, capacity, perMl);
    ExitFacts(s2);
    StepsKeepClock(s2, perMl);
    RemainingMonotone(100.0, sv.total, s2.total, perMl);
  }

  // ---------------------------------------------------------------------------
  // The swarm as the script holds it

  /** The five coaches C1..C5 the swarm starts with: fresh, distinct, in a train
      35 apart from the catheter, each full. */
  method MakeCoaches(capacity: real) returns (cs: seq<NanobotCoach>)
    ensures |cs| == CoachCount
    ensures forall k :: 0 <= k < CoachCount ==> fresh(cs[k]) && cs[k].View() == InitialCoach(k, capacity)
    ensures forall a, b :: 0 <= a < b < CoachCount ==> cs[a] != cs[b]
  {
    cs := [];
    var pos: nat := 0;
    while pos < CoachCount
      invariant pos <= CoachCount && |cs| == pos
      invariant forall k :: 0 <= k < pos ==> fresh(cs[k]) && cs[k].View() == InitialCoach(k, capacity)
      invariant forall a, b :: 0 <= a < b < pos ==> cs[a] != cs[b]
    {
      var coach := new NanobotCoach(Labels[pos], pos, CatheterX + pos as real * CoachSpacing, CatheterY, capacity);
      cs := cs + [coach];
      pos := pos + 1;
    }
  }

  class MetroTrainSwarm {
    const coaches: seq<NanobotCoach>
    const medicinePerCoach: real
    const clotRequired: real
    const medicineThreshold: real
    const dissolutionPerMl: real
    const maxFrames: nat
    var time: real
    var frame: nat
    var deliveryLog: seq<LogEntry<real>>
    var clotRemaining: real
    var totalMedicineApplied: real
    var currentState: SwarmState
    var deliveryCycleCount: nat
    var medicineEffect: real
    var treatmentComplete: bool

    function Views(): (vs: seq<CoachState>)
      reads coaches
      ensures |vs| == |coaches| && forall k :: 0 <= k < |coaches| ==> vs[k] == coaches[k].View()
    {
      seq(|coaches|, k requires 0 <= k < |coaches| reads coaches => coaches[k].View())
    }

    function Snapshot(): SwarmView
      reads this, coaches
    {
      SwarmView(Views(), clotRemaining, deliveryLog, totalMedicineApplied, currentState,
                deliveryCycleCount, medicineEffect, frame, time, treatmentComplete)
    }

    ghost predicate Distinct() {
      forall a, b :: 0 <= a < b < |coaches| ==> coaches[a] != coaches[b]
    }

    ghost predicate Valid()
      reads this, coaches
    {
      && Distinct()
      && medicinePerCoach > 0.0
      && dissolutionPerMl > 0.0
      && Inv(Snapshot(), medicinePerCoach, dissolutionPerMl)
    }

    constructor (medicinePerCoach: real, clotRequired: real)
      requires medicinePerCoach > 0.0 && clotRequired > 0.0
      ensures Valid()
      ensures Snapshot() == InitialView(medicinePerCoach)
      ensures this.medicinePerCoach == medicinePerCoach && this.clotRequired == clotRequired
      ensures medicineThreshold == clotRequired + 2.0 && dissolutionPerMl == 100.0 / clotRequired
      ensures maxFrames == 3000
    {
      var cs := MakeCoaches(medicinePerCoach);
      coaches := cs;
      this.medicinePerCoach := medicinePerCoach;
      this.clotRequired := clotRequired;
      medicineThreshold := clotRequired + 2.0;
      dissolutionPerMl := 100.0 / clotRequired;
      time, frame, maxFrames := 0.0, 0, 3000;
      deliveryLog, clotRemaining, totalMedicineApplied := [], 100.0, 0.0;
      currentState, deliveryCycleCount, medicineEffect := Entering, 0, 0.0;
      treatmentComplete := false;
      new;
      assert Views() == InitialView(medicinePerCoach).coaches;
      assert Snapshot() == InitialView(medicinePerCoach);
      InitialValid(medicinePerCoach, dissolutionPerMl);
    }

    /** get_formation, as indices into the coach list. */
    function GetFormation(): (r: seq<nat>)
      reads coaches
      ensures forall k :: 0 <= k < |r| ==> r[k] < |coaches| && coaches[r[k]].inFormation
      ensures forall k :: 0 <= k < |coaches| && coaches[k].inFormation ==> k in r
      ensures forall a, b :: 0 <= a < b < |r| ==> coaches[r[a]].x <= coaches[r[b]].x
      ensures forall a, b :: 0 <= a < b < |r| ==> r[a] != r[b]
    {
      FormationOrder(Views())
    }

    /** get_waiting_coaches, as indices into the coach list. */
    function GetWaitingCoaches(): (r: seq<nat>)
      reads coaches
      ensures forall k :: 0 <= k < |r| ==> r[k] < |coaches| && coaches[r[k]].atClot
      ensures forall k :: 0 <= k < |coaches| && coaches[k].atClot ==> k in r
    {
      Members(WaitingFlags(Views()), |coaches|)
    }

    /** get_leader: the rightmost coach of the train, or None without a train. */
    function GetLeader(): (r: Option<nat>)
      reads coaches
      ensures r.None? <==> forall k :: 0 <= k < |coaches| ==> !coaches[k].inFormation
      ensures r.Some? ==> r.value < |coaches| && coaches[r.value].inFormation
      ensures r.Some? ==> forall k :: 0 <= k < |coaches| && coaches[k].inFormation ==> coaches[k].x <= coaches[r.value].x
    {
      Leader(Views())
    }

    method AdvanceFormation(vx: real)
      requires Distinct()
      modifies coaches
      ensures Views() == Advance(old(Views()), vx)
    {
      var k := 0;
      while k < |coaches|
        invariant 0 <= k <= |coaches|
        invariant forall j :: 0 <= j < k ==> coaches[j].View() == Moved(old(coaches[j].View()), vx)
        invariant forall j :: k <= j < |coaches| ==> coaches[j].View() == old(coaches[j].View())
      {
        if coaches[k].inFormation {
          coaches[k].UpdatePosition(vx);
        }
        k := k + 1;
      }
    }

    method MoveFormation()
      requires Valid()
      modifies coaches, this
      ensures Valid()
      ensures Snapshot() == MoveStep(old(Snapshot()))
    {
      ghost var before := Snapshot();
      InvMove(before, medicinePerCoach, dissolutionPerMl);
      MoveFormationStep(before);
    }

    /** The branches of move_formation, stated on the view. */
    method MoveFormationStep(ghost before: SwarmView)
      requires Distinct() && before == Snapshot()
      modifies coaches, this
      ensures Snapshot() == MoveStep(before)
    {
      var leader := GetLeader();
      if leader.None? {
        return;
      }
      var lx := coaches[leader.value].x;
      if currentState == Entering {
        if lx < CatheterX + 60.0 {
          AdvanceFormation(3.0);
          assert MoveStep(before) == before.(coaches := Advance(before.coaches, 3.0));
        } else {
          SetState(Approaching, before);
          assert MoveStep(before) == before.(state := Approaching);
        }
      } else if currentState == Approaching {
        var distanceToTarget := TargetX - lx;
        if distanceToTarget > 5.0 {
          AdvanceFormation(ApproachSpeed(distanceToTarget));
          assert MoveStep(before) == before.(coaches := Advance(before.coaches, ApproachSpeed(distanceToTarget)));
        } else {
          SetState(Delivering, before);
          assert MoveStep(before) == before.(state := Delivering);
        }
      } else {
        assert MoveStep(before) == before;
      }
      assert Snapshot() == MoveStep(before);
    }

    /** Switches the state machine to `next` and touches nothing else. */
    method SetState(next: SwarmState, ghost sv: SwarmView)
      requires sv == Snapshot()
      modifies this
      ensures Snapshot() == sv.(state := next)
    {
      currentState := next;
      assert Views() == sv.coaches;
    }

    /** The leader hands out one dose: to the total, the effect, the clot and the log. */
    method DispenseFromLeader(l: nat, ghost sv: SwarmView)
      requires Distinct() && l < |coaches| && sv == Snapshot()
      modifies this, coaches[l]
      ensures Snapshot() == Booked(sv.(coaches := sv.coaches[l := Dispensed(sv.coaches[l], MlPerFrame)]),
                                   sv.coaches[l].coachLabel, DoseOf(sv.coaches[l], MlPerFrame), dissolutionPerMl)
    {
      ghost var vs := sv.coaches[l := Dispensed(sv.coaches[l], MlPerFrame)];
      var dispensed := DispenseCoach(l, sv.coaches);
      assert Snapshot() == sv.(coaches := vs);
      RecordDose(coaches[l].coachLabel, dispensed, sv.(coaches := vs));
    }

    /** Coach `l` hands out its dose. */
    method DispenseCoach(l: nat, ghost vs: seq<CoachState>) returns (dispensed: real)
      requires Distinct() && l < |coaches| && vs == Views()
      modifies coaches[l]
      ensures dispensed == DoseOf(vs[l], MlPerFrame)
      ensures Views() == vs[l := Dispensed(vs[l], MlPerFrame)]
    {
      dispensed := coaches[l].DispenseMedicine(MlPerFrame);
      assert Views() == vs[l := coaches[l].View()];
    }

    /** The swarm's account of a dose: total, effect, clot and log. */
    method RecordDose(coachName: string, dispensed: real, ghost sv: SwarmView)
      requires sv == Snapshot()
      modifies this
      ensures Snapshot() == Booked(sv, coachName, dispensed, dissolutionPerMl)
    {
      ApplyDose(dispensed, sv);
      LogDose(coachName, dispensed, Snapshot());
    }

    /** The dose is added to the total and the effect and dissolves the clot. */
    method ApplyDose(dispensed: real, ghost sv: SwarmView)
      requires sv == Snapshot()
      modifies this
      ensures Snapshot() == sv.(total := sv.total + dispensed, effect := sv.effect + dispensed,
                                clot := Remaining(sv.clot, dispensed, dissolutionPerMl))
    {
      totalMedicineApplied := totalMedicineApplied + dispensed;
      medicineEffect := medicineEffect + dispensed;
      clotRemaining := Remaining(clotRemaining, dispensed, dissolutionPerMl);
      assert Views() == sv.coaches;
    }

    /** The dose is credited in the log with the new total and clot. */
    method LogDose(coachName: string, dispensed: real, ghost sv: SwarmView)
      requires sv == Snapshot()
      modifies this
      ensures Snapshot() == sv.(log := Record(sv.log, LogEntry(sv.frame, sv.time, coachName, 0.0, sv.total, sv.clot), dispensed))
    {
      var entry := LogEntry(frame, time, coachName, 0.0, totalMedicineApplied, clotRemaining);
      deliveryLog := Record(deliveryLog, entry, dispensed);
      assert Views() == sv.coaches;
    }

    /** The empty leader leaves the train where it is and waits at the clot. */
    method DetachLeader(l: nat, ghost sv: SwarmView)
      requires Distinct() && l < |coaches| && sv == Snapshot()
      modifies this, coaches[l]
      ensures Snapshot() == sv.(coaches := sv.coaches[l := Detached(sv.coaches[l])],
                                cycles := sv.cycles + 1, state := Approaching)
    {
      var c := coaches[l];
      c.inFormation, c.atClot := false, true;
      deliveryCycleCount := deliveryCycleCount + 1;
      currentState := Approaching;
      assert Views() == sv.coaches[l := c.View()];
    }

    method DeliverMedicineToClot()
      requires Valid()
      modifies this, coaches
      ensures Valid()
      ensures Snapshot() == DeliverStep(old(Snapshot()), dissolutionPerMl)
    {
      ghost var before := Snapshot();
      InvDeliver(before, medicinePerCoach, dissolutionPerMl);
      if currentState != Delivering || clotRemaining <= 0.0 {
        return;
      }
      var leader := GetLeader();
      if leader.None? {
        return;
      }
      var l := leader.value;
      if Abs(TargetX - coaches[l].x) <= 15.0 {
        if coaches[l].medicineCurrent > 0.0 {
          DeliverDispenseCase(before, dissolutionPerMl, l);
          DispenseFromLeader(l, before);
        } else {
          DeliverDetachCase(before, dissolutionPerMl, l);
          DetachLeader(l, before);
        }
      } else {
        assert DeliverStep(before, dissolutionPerMl) == before;
      }
    }

    /** The loop over the waiting coaches, each snapping onto `anchor`. */
    method RejoinWaiting(anchor: Point, ghost vs: seq<CoachState>)
      requires Distinct() && vs == Views()
      modifies coaches
      ensures Views() == RejoinAll(vs, anchor)
    {
      var k := 0;
      while k < |coaches|
        invariant 0 <= k <= |coaches|
        invariant forall j :: 0 <= j < k ==> coaches[j].View() == Rejoined(vs[j], anchor)
        invariant forall j :: k <= j < |coaches| ==> coaches[j].View() == vs[j]
      {
        var coach := coaches[k];
        if coach.atClot {
          coach.atClot, coach.inFormation := false, true;
          coach.x, coach.y := anchor.x, anchor.y;
        }
        k := k + 1;
      }
      assert Views() == RejoinAll(vs, anchor);
    }

    method AttachWaitingCoaches()
      requires Valid()
      modifies coaches
      ensures Valid()
      ensures Snapshot() == AttachStep(old(Snapshot()))
    {
      ghost var before := Snapshot();
      InvAttach(before, medicinePerCoach, dissolutionPerMl);
      if NoneWaiting(Views()) {
        return;
      }
      var leader := GetLeader();
      if leader.None? {
        return;
      }
      if Abs(TargetX - coaches[leader.value].x) > 30.0 {
        return;
      }
      var b := Back(Views()).value;
      var anchor := Point(coaches[b].x - CoachSpacing, coaches[b].y);
      assert anchor == BehindBack(before.coaches, b);
      RejoinWaiting(anchor, before.coaches);
      assert Snapshot() == before.(coaches := Views());
    }

    method CheckClotDissolved()
      requires Valid()
      modifies this
      ensures Valid()
      ensures Snapshot() == CheckStep(old(Snapshot()))
    {
      if clotRemaining <= 0.0 {
        treatmentComplete := true;
        currentState := Exiting;
      }
    }

    /** Every coach of the train right of catheter_x + 25 moves back by 4. */
    method RetreatFormation(ghost vs: seq<CoachState>)
      requires Distinct() && vs == Views()
      modifies coaches
      ensures Views() == Retreat(vs)
    {
      var k := 0;
      while k < |coaches|
        invariant 0 <= k <= |coaches|
        invariant forall j :: 0 <= j < k ==> coaches[j].View() == Retreated(vs[j])
        invariant forall j :: k <= j < |coaches| ==> coaches[j].View() == vs[j]
      {
        if coaches[k].inFormation && coaches[k].x > CatheterX + 25.0 {
          coaches[k].UpdatePosition(-4.0);
        }
        k := k + 1;
      }
      assert Views() == Retreat(vs);
    }

    method ExitTreatment()
      requires Valid()
      modifies this, coaches
      ensures Valid()
      ensures Snapshot() == ExitStep(old(Snapshot()))
    {
      ghost var before := Snapshot();
      InvExit(before, medicinePerCoach, dissolutionPerMl);
      if currentState != Exiting {
        return;
      }
      RetreatFormation(before.coaches);
      if AllBack(Views()) && NoneWaiting(Views()) {
        currentState := Complete;
      }
      assert Snapshot() == ExitStep(before);
    }

    /** The start of update: the clock and the dissolution check. */
    method StartFrame()
      requires Valid()
      modifies this
      ensures Valid()
      ensures Snapshot() == Prepare(old(Snapshot()))
    {
      ghost var before := Snapshot();
      time := frame as real / FramesPerSecond;
      assert Snapshot() == before.(time := before.frame as real / FramesPerSecond);
      if clotRemaining <= 0.0 {
        CheckClotDissolved();
      }
    }

    /** Moving, delivering and attaching while in treatment. */
    method TreatmentPhase()
      requires Valid()
      modifies this, coaches
      ensures Valid()
      ensures Snapshot() == Treat(old(Snapshot()), dissolutionPerMl)
    {
      if Active(currentState) {
        MoveFormation();
        DeliverMedicineToClot();
        AttachWaitingCoaches();
      }
    }

    /** The end of update: the medicine effect decays and the frame advances. */
    method FinishFrame()
      requires Valid()
      modifies this
      ensures Valid()
      ensures Snapshot() == Finish(old(Snapshot()))
    {
      ghost var before := Snapshot();
      medicineEffect := Max(0.0, medicineEffect - EffectDecay);
      frame := frame + 1;
      assert Snapshot() == Finish(before);
    }

    method Update()
      requires Valid()
      modifies this, coaches
      ensures Valid()
      ensures Snapshot() == UpdateStep(old(Snapshot()), dissolutionPerMl)
    {
      StartFrame();
      TreatmentPhase();
      ExitTreatment();
      FinishFrame();
    }

    /** is_complete: once COMPLETE, the whole train is back and nobody waits. */
    function IsComplete(): (r: bool)
      reads this, coaches
      requires Valid()
      ensures r ==> AllBack(Views()) && NoneWaiting(Views()) && treatmentComplete && clotRemaining <= 0.0
    {
      currentState == Complete
    }
  }
}
