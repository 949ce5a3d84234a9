/** Model of metro_train_enhanced.py: five medicine-carrying coaches run as a
    train from the catheter to a clot; the front coach (the leader) delivers
    0.05 ml per frame until it is empty, then detaches and waits at the clot,
    and waiting coaches glide back to the end of the train once the train is
    near the clot again. The clot's size, viscosity, reflectance and resistance
    fall linearly with the medicine applied.

    The coaches, the clot and the swarm are classes whose methods update their
    fields as the script does; each method is specified by a pure step function
    on a snapshot (`SwarmView`), and the promised properties are proved about
    those step functions. */
module MetroEnhanced {
  import opened Basics
  import opened Numeric
  import opened MetroCommon

  // ---------------------------------------------------------------------------
  // Coach colour (get_color)

  datatype Color = LightCoral | DarkBlue | SteelBlue | SkyBlue | LightBlue | AliceBlue | White

  /** How blue a shade is: 5 for dark blue down to 0 for white. */
  function Depth(c: Color): nat {
    match c
    case DarkBlue => 5
    case SteelBlue => 4
    case SkyBlue => 3
    case LightBlue => 2
    case AliceBlue => 1
    case White => 0
    case LightCoral => 0
  }

  /** Colour of a coach from its waiting flag and its medicine ratio. */
  function ColorOf(atClot: bool, ratio: real): Color {
    if atClot then LightCoral
    else if ratio >= 0.9 then DarkBlue
    else if ratio >= 0.7 then SteelBlue
    else if ratio >= 0.5 then SkyBlue
    else if ratio >= 0.25 then LightBlue
    else if ratio > 0.01 then AliceBlue
    else White
  }

  /** A waiting coach is light coral whatever it carries; a coach in the train
      is a blue shade that never gets lighter as its load grows: dark blue from
      90% up, white at 1% and below. */
  lemma ColorReflectsLoad(atClot: bool, r1: real, r2: real)
    requires r1 <= r2
    ensures atClot <==> ColorOf(atClot, r1) == LightCoral
    ensures !atClot ==> Depth(ColorOf(atClot, r1)) <= Depth(ColorOf(atClot, r2))
    ensures !atClot && r2 >= 0.9 ==> ColorOf(atClot, r2) == DarkBlue
    ensures !atClot && r1 <= 0.01 ==> ColorOf(atClot, r1) == White
  {
  }

  // ---------------------------------------------------------------------------
  // Clot (ClotModel)

  datatype ClotReading = ClotReading(size: real, viscosity: real, reflectance: real, resistance: real)

  /** A fresh clot: 100% size, 100 cP, 95% reflectance, resistance 100. */
  const InitialClot := ClotReading(100.0, 100.0, 95.0, 100.0)

  /** `dissolution_per_ml = 100.0 / 6.5`: 6.5 ml dissolve a whole clot. */
  const DissolutionPerMl: real := 100.0 / 6.5

  /** apply_medicine: every reading falls linearly with the dose and is floored at 0. */
  function Dissolve(c: ClotReading, ml: real): ClotReading {
    ClotReading(
      Max(0.0, c.size - ml * DissolutionPerMl),
      Max(0.0, c.viscosity - ml * 10.0),
      Max(0.0, c.reflectance - ml * 7.0),
      Max(0.0, c.resistance - ml * 10.0))
  }

  predicate NonNegative(c: ClotReading) {
    c.size >= 0.0 && c.viscosity >= 0.0 && c.reflectance >= 0.0 && c.resistance >= 0.0
  }

  /** A non-negative dose keeps all four readings non-negative, never raises any
      of them, and lowers each by exactly its rate times the dose while that
      does not cross 0. */
  lemma DissolveBounds(c: ClotReading, ml: real)
    requires ml >= 0.0
    ensures NonNegative(Dissolve(c, ml))
    ensures NonNegative(c) ==> (Dissolve(c, ml).size <= c.size && Dissolve(c, ml).viscosity <= c.viscosity
                                && Dissolve(c, ml).reflectance <= c.reflectance && Dissolve(c, ml).resistance <= c.resistance)
    ensures c.size >= ml * DissolutionPerMl ==> Dissolve(c, ml).size == c.size - ml * DissolutionPerMl
    ensures c.viscosity >= ml * 10.0 ==> Dissolve(c, ml).viscosity == c.viscosity - ml * 10.0
    ensures c.reflectance >= ml * 7.0 ==> Dissolve(c, ml).reflectance == c.reflectance - ml * 7.0
    ensures c.resistance >= ml * 10.0 ==> Dissolve(c, ml).resistance == c.resistance - ml * 10.0
  {
  }

  /** Two doses in a row act as one dose of their sum. */
  lemma DissolveCompose(c: ClotReading, a: real, b: real)
    requires a >= 0.0 && b >= 0.0
    ensures Dissolve(Dissolve(c, a), b) == Dissolve(c, a + b)
  {
  }

  /** A fresh clot has dissolved exactly when at least 6.5 ml have reached it. */
  lemma DissolvedExactlyAfterFullDose(ml: real)
    requires ml >= 0.0
    ensures Dissolve(InitialClot, ml).size <= 0.0 <==> ml >= 6.5
    ensures Dissolve(InitialClot, 0.0) == InitialClot
  {
  }

  class ClotModel {
    var sizePercent: real
    var viscosity: real
    var reflectance: real
    var resistance: real

    function Reading(): ClotReading
      reads this
    {
      ClotReading(sizePercent, viscosity, reflectance, resistance)
    }

    constructor ()
      ensures Reading() == InitialClot
    {
      sizePercent, viscosity, reflectance, resistance := 100.0, 100.0, 95.0, 100.0;
    }

    method ApplyMedicine(mlAmount: real)
      modifies this
      ensures Reading() == Dissolve(old(Reading()), mlAmount)
    {
      sizePercent := Max(0.0, sizePercent - mlAmount * DissolutionPerMl);
      viscosity := Max(0.0, viscosity - mlAmount * 10.0);
      reflectance := Max(0.0, reflectance - mlAmount * 7.0);
      resistance := Max(0.0, resistance - mlAmount * 10.0);
    }

    function IsDissolved(): bool
      reads this
    {
      sizePercent <= 0.0
    }
  }

  // ---------------------------------------------------------------------------
  // Coaches

  /** Snapshot of one coach. */
  datatype CoachState = CoachState(
    coachLabel: string,
    capacity: real,
    x: real,
    y: real,
    medicineCurrent: real,
    deliveredAmount: real,
    inFormation: bool,
    atClot: bool,
    target: Option<Point>,
    reattaching: bool)

  /** Per-coach invariant: the load is conserved and non-negative, the coach is
      either in the train or waiting at the clot, it and its target stay on the
      vessel axis, and a reattaching coach is a waiting coach with a target. */
  predicate CoachOk(c: CoachState, capacity: real) {
    && c.capacity == capacity
    && c.medicineCurrent >= 0.0 && c.deliveredAmount >= 0.0
    && c.medicineCurrent + c.deliveredAmount == capacity
    && c.inFormation != c.atClot
    && c.y == CatheterY
    && (c.target.Some? ==> c.target.value.y == CatheterY)
    && (c.reattaching ==> c.atClot && c.target.Some?)
  }

  /** `dispense_medicine`: hand out at most `ml` of what is left. */
  function DoseOf(c: CoachState, ml: real): real {
    Min(ml, c.medicineCurrent)
  }

  /** The coach after handing out its dose. */
  function Dispensed(c: CoachState, ml: real): CoachState {
    c.(medicineCurrent := c.medicineCurrent - DoseOf(c, ml), deliveredAmount := c.deliveredAmount + DoseOf(c, ml))
  }

  /** A dispense of a non-negative amount hands out `min(ml, medicine_current)`,
      never leaves the load negative and conserves load plus delivered amount. */
  lemma DispenseConserves(c: CoachState, ml: real, capacity: real)
    requires CoachOk(c, capacity) && ml >= 0.0
    ensures var c2, d := Dispensed(c, ml), DoseOf(c, ml);
      && 0.0 <= d <= ml && d <= c.medicineCurrent
      && (d == ml || d == c.medicineCurrent)
      && CoachOk(c2, capacity)
      && c2.medicineCurrent == c.medicineCurrent - d
      && c2 == c.(medicineCurrent := c2.medicineCurrent, deliveredAmount := c2.deliveredAmount)
  {
  }

  /** `move_to_position` along the vessel axis: a step of `speed` toward the
      target, or a snap onto it when it is at most `speed` away. Every coach and
      every target of the model lies on y = 500, where the Euclidean step of the
      script is exactly a step of `speed` along x. */
  function Glide(c: CoachState, p: Option<Point>, speed: real): (CoachState, bool) {
    match p
    case None => (c, false)
    case Some(q) =>
      var dx := q.x - c.x;
      if Abs(dx) > speed then (c.(x := c.x + (if dx > 0.0 then speed else -speed)), false)
      else (c.(x := q.x, y := q.y), true)
  }

  /** Gliding either reaches the target or gets exactly `speed` closer to it,
      changing nothing but the position. */
  lemma GlideApproaches(c: CoachState, q: Point, speed: real)
    requires speed > 0.0
    ensures var (c2, reached) := Glide(c, Some(q), speed);
      && (reached <==> Abs(q.x - c.x) <= speed)
      && (reached ==> c2.x == q.x && c2.y == q.y)
      && (!reached ==> Abs(q.x - c2.x) == Abs(q.x - c.x) - speed && c2.y == c.y)
      && c2 == c.(x := c2.x, y := c2.y)
  {
  }

  class NanobotCoach {
    const coachLabel: string
    const pos: nat
    const medicineCapacity: real
    var x: real
    var y: real
    var medicineCurrent: real
    var deliveredAmount: real
    var inFormation: bool
    var atClot: bool
    var target: Option<Point>
    var reattaching: bool

    function View(): CoachState
      reads this
    {
      CoachState(coachLabel, medicineCapacity, x, y, medicineCurrent, deliveredAmount, inFormation, atClot, target, reattaching)
    }

    constructor (labelText: string, initialPosition: nat, x0: real, y0: real, capacity: real)
      ensures View() == CoachState(labelText, capacity, x0, y0, capacity, 0.0, true, false, None, false)
      ensures pos == initialPosition
    {
      coachLabel, pos, medicineCapacity := labelText, initialPosition, capacity;
      x, y := x0, y0;
      medicineCurrent, deliveredAmount := capacity, 0.0;
      inFormation, atClot := true, false;
      target, reattaching := None, false;
    }

    method UpdatePosition(vx: real)
      modifies this
      ensures View() == old(View()).(x := old(x) + vx)
    {
      x := x + vx;
    }

    /** Only the on-axis case is modelled (see Glide). */
    method MoveToPosition(p: Option<Point>, speed: real) returns (reached: bool)
      requires p.Some? ==> p.value.y == y
      modifies this
      ensures (View(), reached) == Glide(old(View()), p, speed)
    {
      reached := false;
      if p.Some? {
        var dx := p.value.x - x;
        if Abs(dx) > speed {
          x := x + (if dx > 0.0 then speed else -speed);
        } else {
          x, y := p.value.x, p.value.y;
          reached := true;
        }
      }
    }

    method DispenseMedicine(mlPerFrame: real) returns (dispensed: real)
      modifies this
      ensures dispensed == DoseOf(old(View()), mlPerFrame)
      ensures View() == Dispensed(old(View()), mlPerFrame)
    {
      dispensed := Min(mlPerFrame, medicineCurrent);
      medicineCurrent := medicineCurrent - dispensed;
      deliveredAmount := deliveredAmount + dispensed;
    }

    function GetColor(): Color
      reads this
      requires medicineCapacity != 0.0
    {
      ColorOf(atClot, medicineCurrent / medicineCapacity)
    }
  }

  // ---------------------------------------------------------------------------
  // Views of the whole train

  function Xs(vs: seq<CoachState>): (r: seq<real>)
    ensures |r| == |vs| && forall k :: 0 <= k < |vs| ==> r[k] == vs[k].x
  {
    seq(|vs|, k requires 0 <= k < |vs| => vs[k].x)
  }

  function Formed(vs: seq<CoachState>): (r: seq<bool>)
    ensures |r| == |vs| && forall k :: 0 <= k < |vs| ==> r[k] == vs[k].inFormation
  {
    seq(|vs|, k requires 0 <= k < |vs| => vs[k].inFormation)
  }

  function WaitingFlags(vs: seq<CoachState>): (r: seq<bool>)
    ensures |r| == |vs| && forall k :: 0 <= k < |vs| ==> r[k] == vs[k].atClot
  {
    seq(|vs|, k requires 0 <= k < |vs| => vs[k].atClot)
  }

  function Delivered(vs: seq<CoachState>): (r: seq<real>)
    ensures |r| == |vs| && forall k :: 0 <= k < |vs| ==> r[k] == vs[k].deliveredAmount
  {
    seq(|vs|, k requires 0 <= k < |vs| => vs[k].deliveredAmount)
  }

  /** The leader: the rightmost coach of the train. */
  function Leader(vs: seq<CoachState>): Option<nat> {
    FirstMax(Xs(vs), Formed(vs))
  }

  /** The leftmost coach of the train. */
  function Back(vs: seq<CoachState>): Option<nat> {
    FirstMin(Xs(vs), Formed(vs))
  }

  predicate NoneWaiting(vs: seq<CoachState>) {
    forall k :: 0 <= k < |vs| ==> !vs[k].atClot
  }

  /** Every coach of the train is back at the catheter (x <= catheter_x + 25). */
  predicate AllBack(vs: seq<CoachState>) {
    forall k :: 0 <= k < |vs| ==> vs[k].inFormation ==> vs[k].x <= CatheterX + 25.0
  }

  /** get_formation (as coach indices): exactly the coaches of the train, sorted by x. */
  function FormationOrder(vs: seq<CoachState>): (r: seq<nat>)
    ensures forall k :: 0 <= k < |r| ==> r[k] < |vs| && vs[r[k]].inFormation
    ensures forall k :: 0 <= k < |vs| && vs[k].inFormation ==> k in r
    ensures forall a, b :: 0 <= a < b < |r| ==> r[a] != r[b]
    ensures forall a, b :: 0 <= a < b < |r| ==> vs[r[a]].x <= vs[r[b]].x
    ensures forall a, b :: 0 <= a < b < |r| && vs[r[a]].x == vs[r[b]].x ==> r[a] < r[b]
  {
    var r := SortedMembers(Formed(vs), Xs(vs));
    forall a, b | 0 <= a < b < |r| ensures vs[r[a]].x <= vs[r[b]].x {
      assert Xs(vs)[r[a]] <= Xs(vs)[r[b]];
    }
    r
  }

  /** The whole swarm. */
  datatype SwarmView = SwarmView(
    coaches: seq<CoachState>,
    clot: ClotReading,
    log: seq<LogEntry<ClotReading>>,
    total: real,
    state: SwarmState,
    cycles: nat,
    effect: real,
    frame: nat,
    time: real)

  /** What every step keeps: each coach is valid, the clot is a fresh clot
      after the total dose, the log and the coaches account for the same total,
      the effect is non-negative, and the exit states are only reached once the
      clot has dissolved, COMPLETE only with the whole train back and nobody waiting. */
  predicate Inv(sv: SwarmView, capacity: real) {
    && |sv.coaches| == CoachCount
    && (forall k :: 0 <= k < |sv.coaches| ==> CoachOk(sv.coaches[k], capacity))
    && sv.total == LogTotal(sv.log)
    && sv.total == Sum(Delivered(sv.coaches))
    && sv.total >= 0.0
    && sv.clot == Dissolve(InitialClot, sv.total)
    && sv.effect >= 0.0
    && (sv.state == Exiting || sv.state == Complete ==> sv.clot.size <= 0.0)
    && (sv.state == Complete ==> AllBack(sv.coaches) && NoneWaiting(sv.coaches))
  }

  function InitialCoach(k: nat, capacity: real): CoachState
    requires k < CoachCount
  {
    CoachState(Labels[k], capacity, CatheterX + k as real * CoachSpacing, CatheterY, capacity, 0.0, true, false, None, false)
  }

  function InitialView(capacity: real): SwarmView {
    SwarmView(seq(CoachCount, k requires 0 <= k < CoachCount => InitialCoach(k, capacity)),
              InitialClot, [], 0.0, Entering, 0, 0.0, 0, 0.0)
  }

  /** The swarm starts valid: C1..C5 in a train 35 apart from the catheter, C5 in front. */
  lemma InitialValid(capacity: real)
    requires capacity >= 0.0
    ensures Inv(InitialView(capacity), capacity)
    ensures Leader(InitialView(capacity).coaches) == Some(CoachCount - 1)
  {
    var vs := InitialView(capacity).coaches;
    SumBounds(Delivered(vs), 0.0);
    var xs := Xs(vs);
    assert xs == [50.0, 85.0, 120.0, 155.0, 190.0];
  }

  // ---------------------------------------------------------------------------
  // move_formation

  function Moved(c: CoachState, vx: real): CoachState {
    if c.inFormation then c.(x := c.x + vx) else c
  }

  /** Every coach of the train moves by `vx`. */
  function Advance(vs: seq<CoachState>, vx: real): (r: seq<CoachState>)
    ensures |r| == |vs| && forall k :: 0 <= k < |vs| ==> r[k] == Moved(vs[k], vx)
  {
    seq(|vs|, k requires 0 <= k < |vs| => Moved(vs[k], vx))
  }

  /** Moving the train keeps the gaps between its coaches, leaves waiting
      coaches where they are, and keeps the same leader and the same back coach. */
  lemma AdvanceKeepsShape(vs: seq<CoachState>, vx: real)
    ensures var r := Advance(vs, vx);
      && (forall a, b :: 0 <= a < |vs| && 0 <= b < |vs| && vs[a].inFormation && vs[b].inFormation
            ==> r[a].x - r[b].x == vs[a].x - vs[b].x)
      && (forall k :: 0 <= k < |vs| && !vs[k].inFormation ==> r[k] == vs[k])
      && Leader(r) == Leader(vs) && Back(r) == Back(vs)
  {
    var r := Advance(vs, vx);
    assert Formed(r) == Formed(vs);
    FirstMaxShift(Xs(vs), Xs(r), Formed(vs), vx, |vs|);
    FirstMinShift(Xs(vs), Xs(r), Formed(vs), vx, |vs|);
  }

  function MoveStep(sv: SwarmView): SwarmView {
    match Leader(sv.coaches)
    case None => sv
    case Some(l) =>
      var lx := sv.coaches[l].x;
      if sv.state == Entering then
        if lx < CatheterX + 60.0 then sv.(coaches := Advance(sv.coaches, 3.0)) else sv.(state := Approaching)
      else if sv.state == Approaching then
        if TargetX - lx > 5.0 then sv.(coaches := Advance(sv.coaches, ApproachSpeed(TargetX - lx)))
        else sv.(state := Delivering)
      else sv
  }

  /** move_formation changes only the train's positions and the state:
      ENTERING becomes APPROACHING once the leader is 60 past the catheter,
      APPROACHING becomes DELIVERING once the leader is within 5 of the clot, and
      otherwise the whole train advances by one speed of the schedule (3 when
      entering), the step never carrying the leader past the clot. */
  lemma MoveFormationTransitions(sv: SwarmView)
    ensures var r := MoveStep(sv);
      && r == sv.(coaches := r.coaches, state := r.state)
      && (r.state == sv.state || (sv.state == Entering && r.state == Approaching)
          || (sv.state == Approaching && r.state == Delivering))
      && (r.state != sv.state ==> r.coaches == sv.coaches && Leader(sv.coaches).Some?)
      && (sv.state == Entering && r.state == Approaching
          ==> sv.coaches[Leader(sv.coaches).value].x >= CatheterX + 60.0)
      && (sv.state == Approaching && r.state == Delivering
          ==> TargetX - sv.coaches[Leader(sv.coaches).value].x <= 5.0)
      && (r.coaches != sv.coaches ==> exists vx :: 0.0 < vx <= 4.0 && r.coaches == Advance(sv.coaches, vx))
      && (r.coaches != sv.coaches && sv.state == Approaching
          ==> r.coaches[Leader(sv.coaches).value].x < TargetX)
      && (sv.state != Entering && sv.state != Approaching ==> r == sv)
  {
    match Leader(sv.coaches)
    case None =>
    case Some(l) =>
      var lx := sv.coaches[l].x;
      if sv.state == Entering && lx < CatheterX + 60.0 {
        assert MoveStep(sv).coaches == Advance(sv.coaches, 3.0);
      } else if sv.state == Approaching && TargetX - lx > 5.0 {
        var vx := ApproachSpeed(TargetX - lx);
        assert MoveStep(sv).coaches == Advance(sv.coaches, vx);
      }
  }

  // ---------------------------------------------------------------------------
  // deliver_medicine_to_clot

  /** The swarm's account of a dose `d` handed out by `coachName`: the total,
      the effect, the clot and the log. */
  function Booked(sv: SwarmView, coachName: string, d: real): SwarmView {
    var total := sv.total + d;
    var clot := Dissolve(sv.clot, d);
    sv.(total := total, effect := sv.effect + d, clot := clot,
        log := Record(sv.log, LogEntry(sv.frame, sv.time, coachName, 0.0, total, clot), d))
  }

  function DeliverStep(sv: SwarmView): SwarmView {
    if sv.state != Delivering || sv.clot.size <= 0.0 then sv
    else match Leader(sv.coaches)
      case None => sv
      case Some(l) =>
        var c := sv.coaches[l];
        if Abs(TargetX - c.x) > 15.0 then sv
        else if c.medicineCurrent > 0.0 then
          Booked(sv.(coaches := sv.coaches[l := Dispensed(c, MlPerFrame)]), c.coachLabel, DoseOf(c, MlPerFrame))
        else
          sv.(coaches := sv.coaches[l := c.(inFormation := false, atClot := true, x := TargetX, y := TargetY, target := None)],
              cycles := sv.cycles + 1, state := Approaching)
  }

  /** deliver_medicine_to_clot does nothing unless DELIVERING with clot left;
      a delivery adds at most 0.05 ml to the total, the effect and the clot; an
      empty leader detaches to the clot position and sends the train back to
      APPROACHING, one delivery cycle later. */
  lemma DeliverFacts(sv: SwarmView)
    ensures var r := DeliverStep(sv);
      && ((sv.state != Delivering || sv.clot.size <= 0.0) ==> r == sv)
      && 0.0 <= r.total - sv.total <= MlPerFrame
      && (r.total != sv.total ==> (r.clot == Dissolve(sv.clot, r.total - sv.total)
                                    && r.effect == sv.effect + (r.total - sv.total) && r.state == sv.state && r.cycles == sv.cycles))
      && (r.cycles != sv.cycles ==>
            && r.cycles == sv.cycles + 1 && r.state == Approaching && r.total == sv.total && r.log == sv.log
            && Leader(sv.coaches).Some?
            && var l := Leader(sv.coaches).value;
               r.coaches == sv.coaches[l := sv.coaches[l].(inFormation := false, atClot := true,
                                                          x := TargetX, y := TargetY, target := None)])
      && (r != sv ==> r.total != sv.total || r.cycles != sv.cycles)
  {
  }

  /** The two acting cases of DeliverStep, one at a time. */
  lemma DeliverDispenseCase(sv: SwarmView, l: nat)
    requires sv.state == Delivering && sv.clot.size > 0.0 && Leader(sv.coaches) == Some(l)
    requires Abs(TargetX - sv.coaches[l].x) <= 15.0 && sv.coaches[l].medicineCurrent > 0.0
    ensures DeliverStep(sv) == Booked(sv.(coaches := sv.coaches[l := Dispensed(sv.coaches[l], MlPerFrame)]),
                                      sv.coaches[l].coachLabel, DoseOf(sv.coaches[l], MlPerFrame))
  {
  }

  lemma DeliverDetachCase(sv: SwarmView, l: nat)
    requires sv.state == Delivering && sv.clot.size > 0.0 && Leader(sv.coaches) == Some(l)
    requires Abs(TargetX - sv.coaches[l].x) <= 15.0 && sv.coaches[l].medicineCurrent <= 0.0
    ensures DeliverStep(sv) == sv.(coaches := sv.coaches[l := sv.coaches[l].(inFormation := false, atClot := true,
                                     x := TargetX, y := TargetY, target := None)],
                                   cycles := sv.cycles + 1, state := Approaching)
  {
  }

  // ---------------------------------------------------------------------------
  // attach_waiting_coaches

  /** One waiting coach: it is given a target 35 behind the back of the train
      when it starts reattaching, glides toward it at speed 2.0, and rejoins the
      train on reaching it. */
  function ReattachOne(c: CoachState, anchor: Point): CoachState {
    if !c.atClot then c
    else
      var c1 := if c.reattaching then c else c.(target := Some(anchor), reattaching := true);
      var (c2, reached) := Glide(c1, c1.target, 2.0);
      if reached then c2.(atClot := false, inFormation := true, reattaching := false) else c2
  }

  /** Coaches of the train are untouched; a waiting coach keeps the target it
      was given first, and either rejoins the train exactly on it or stays
      waiting, 2.0 closer to it. */
  lemma ReattachFacts(c: CoachState, anchor: Point)
    requires c.inFormation != c.atClot && (c.reattaching ==> c.target.Some?)
    ensures var r := ReattachOne(c, anchor);
      && (!c.atClot ==> r == c)
      && (c.atClot ==> r.target.Some? && r.target == (if c.reattaching then c.target else Some(anchor)))
      && (c.atClot && r.inFormation ==> (!r.atClot && !r.reattaching
                                         && r.x == r.target.value.x && r.y == r.target.value.y))
      && (c.atClot && !r.inFormation ==> (r.atClot && r.reattaching && r.y == c.y
                                          && Abs(r.target.value.x - r.x) == Abs(r.target.value.x - c.x) - 2.0))
      && r.medicineCurrent == c.medicineCurrent && r.deliveredAmount == c.deliveredAmount
  {
    if c.atClot {
      var c1 := if c.reattaching then c else c.(target := Some(anchor), reattaching := true);
      GlideApproaches(c1, c1.target.value, 2.0);
    }
  }

  function ReattachAll(vs: seq<CoachState>, anchor: Point): (r: seq<CoachState>)
    ensures |r| == |vs| && forall k :: 0 <= k < |vs| ==> r[k] == ReattachOne(vs[k], anchor)
  {
    seq(|vs|, k requires 0 <= k < |vs| => ReattachOne(vs[k], anchor))
  }

  function AttachStep(sv: SwarmView): SwarmView {
    var vs := sv.coaches;
    if NoneWaiting(vs) then sv
    else match (Leader(vs), Back(vs))
      case (Some(l), Some(b)) =>
        if Abs(TargetX - vs[l].x) > 100.0 then sv
        else sv.(coaches := ReattachAll(vs, Point(vs[b].x - CoachSpacing, vs[b].y)))
      case _ => sv
  }

  lemma AttachActsCase(sv: SwarmView, l: nat, b: nat)
    requires !NoneWaiting(sv.coaches) && Leader(sv.coaches) == Some(l) && Back(sv.coaches) == Some(b)
    requires Abs(TargetX - sv.coaches[l].x) <= 100.0
    ensures AttachStep(sv) == sv.(coaches := ReattachAll(sv.coaches, Point(sv.coaches[b].x - CoachSpacing, sv.coaches[b].y)))
  {
  }

  // ---------------------------------------------------------------------------
  // check_clot_dissolved, exit_treatment, update

  function CheckStep(sv: SwarmView): SwarmView {
    if sv.clot.size <= 0.0 then sv.(state := Exiting) else sv
  }

  function Retreated(c: CoachState): CoachState {
    if c.inFormation && c.x > CatheterX + 25.0 then c.(x := c.x - 4.0) else c
  }

  function Retreat(vs: seq<CoachState>): (r: seq<CoachState>)
    ensures |r| == |vs| && forall k :: 0 <= k < |vs| ==> r[k] == Retreated(vs[k])
  {
    seq(|vs|, k requires 0 <= k < |vs| => Retreated(vs[k]))
  }

  function ExitStep(sv: SwarmView): SwarmView {
    if sv.state != Exiting then sv
    else
      var vs := Retreat(sv.coaches);
      sv.(coaches := vs, state := if AllBack(vs) && NoneWaiting(vs) then Complete else Exiting)
  }

  /** exit_treatment acts only while EXITING, moves only coaches of the train
      right of catheter_x + 25 (by -4), and reaches COMPLETE only with the whole
      train back and nobody waiting. */
  lemma ExitFacts(sv: SwarmView)
    ensures var r := ExitStep(sv);
      && (sv.state != Exiting ==> r == sv)
      && (sv.state == Exiting ==> r.state == Exiting || r.state == Complete)
      && (r.state == Complete && sv.state == Exiting ==> AllBack(r.coaches) && NoneWaiting(r.coaches))
      && (sv.state == Exiting && AllBack(sv.coaches) && NoneWaiting(sv.coaches) ==> r.state == Complete)
      && |r.coaches| == |sv.coaches|
      && (forall k :: 0 <= k < |sv.coaches| ==>
            r.coaches[k] == sv.coaches[k] || (sv.coaches[k].inFormation && sv.coaches[k].x > CatheterX + 25.0
              && r.coaches[k] == sv.coaches[k].(x := sv.coaches[k].x - 4.0)))
  {
    if sv.state == Exiting && AllBack(sv.coaches) && NoneWaiting(sv.coaches) {
      assert Retreat(sv.coaches) == sv.coaches;
    }
  }

  /** The start of update: the clock, and the switch to EXITING once the clot has dissolved. */
  function Prepare(sv: SwarmView): SwarmView {
    var s0 := sv.(time := sv.frame as real / FramesPerSecond);
    if s0.clot.size <= 0.0 then CheckStep(s0) else s0
  }

  /** Moving, delivering and reattaching, while the swarm is in treatment. */
  function Treat(sv: SwarmView): SwarmView {
    if Active(sv.state) then AttachStep(DeliverStep(MoveStep(sv))) else sv
  }

  /** The end of update: the medicine effect decays and the frame advances. */
  function Finish(sv: SwarmView): SwarmView {
    sv.(effect := Max(0.0, sv.effect - EffectDecay), frame := sv.frame + 1)
  }

  function UpdateStep(sv: SwarmView): SwarmView {
    Finish(ExitStep(Treat(Prepare(sv))))
  }

  // ---------------------------------------------------------------------------
  // The invariant is kept by every step

  lemma SumDeliveredSame(vs: seq<CoachState>, ws: seq<CoachState>)
    requires |vs| == |ws|
    requires forall k :: 0 <= k < |vs| ==> ws[k].deliveredAmount == vs[k].deliveredAmount
    ensures Sum(Delivered(ws)) == Sum(Delivered(vs))
  {
    assert Delivered(ws) == Delivered(vs);
  }

  lemma InvMove(sv: SwarmView, capacity: real)
    requires Inv(sv, capacity)
    ensures Inv(MoveStep(sv), capacity)
  {
    var r := MoveStep(sv);
    MoveFormationTransitions(sv);
    SumDeliveredSame(sv.coaches, r.coaches);
  }

  /** Dispensing from coach `l` keeps the running total equal to the coaches' deliveries. */
  lemma DeliveredStep(vs: seq<CoachState>, l: nat, v2: CoachState, total: real, d: real)
    requires l < |vs| && total == Sum(Delivered(vs)) && v2.deliveredAmount == vs[l].deliveredAmount + d
    ensures total + d == Sum(Delivered(vs[l := v2]))
  {
    var ds := Delivered(vs);
    SumUpdate(ds, l, v2.deliveredAmount);
    assert Delivered(vs[l := v2]) == ds[l := v2.deliveredAmount];
  }

  /** Booking a non-negative dose keeps the log, the clot and the effect in step
      with the running total, and changes nothing else. */
  lemma BookedKeeps(sv: SwarmView, coachName: string, d: real)
    requires sv.total == LogTotal(sv.log) && sv.total >= 0.0 && sv.clot == Dissolve(InitialClot, sv.total)
    requires sv.effect >= 0.0 && d >= 0.0
    ensures var r := Booked(sv, coachName, d);
      && r.total == sv.total + d && r.total == LogTotal(r.log)
      && r.clot == Dissolve(InitialClot, r.total) && r.effect >= 0.0
      && r == sv.(total := r.total, effect := r.effect, clot := r.clot, log := r.log)
  {
    var clot := Dissolve(sv.clot, d);
    LoggedStep(sv.log, LogEntry(sv.frame, sv.time, coachName, 0.0, sv.total + d, clot), sv.total, d);
    DissolveCompose(InitialClot, sv.total, d);
  }

  lemma InvDispense(sv: SwarmView, capacity: real, l: nat)
    requires Inv(sv, capacity) && l < |sv.coaches| && sv.state == Delivering
    ensures var c := sv.coaches[l];
      Inv(Booked(sv.(coaches := sv.coaches[l := Dispensed(c, MlPerFrame)]), c.coachLabel, DoseOf(c, MlPerFrame)), capacity)
  {
    var c := sv.coaches[l];
    var d := DoseOf(c, MlPerFrame);
    var sv1 := sv.(coaches := sv.coaches[l := Dispensed(c, MlPerFrame)]);
    DispenseConserves(c, MlPerFrame, capacity);
    assert forall k :: 0 <= k < |sv1.coaches| ==> CoachOk(sv1.coaches[k], capacity);
    DeliveredStep(sv.coaches, l, Dispensed(c, MlPerFrame), sv.total, d);
    BookedKeeps(sv1, c.coachLabel, d);
  }

  lemma InvDeliver(sv: SwarmView, capacity: real)
    requires Inv(sv, capacity)
    ensures Inv(DeliverStep(sv), capacity)
  {
    if sv.state == Delivering && sv.clot.size > 0.0 && Leader(sv.coaches).Some? {
      var l := Leader(sv.coaches).value;
      var c := sv.coaches[l];
      if Abs(TargetX - c.x) <= 15.0 {
        if c.medicineCurrent > 0.0 {
          InvDispense(sv, capacity, l);
        } else {
          var c2 := c.(inFormation := false, atClot := true, x := TargetX, y := TargetY, target := None);
          SumDeliveredSame(sv.coaches, sv.coaches[l := c2]);
        }
      }
    }
  }

  lemma ReattachKeepsOk(c: CoachState, anchor: Point, capacity: real)
    requires CoachOk(c, capacity) && anchor.y == CatheterY
    ensures CoachOk(ReattachOne(c, anchor), capacity)
    ensures ReattachOne(c, anchor).deliveredAmount == c.deliveredAmount
  {
    ReattachFacts(c, anchor);
  }

  lemma InvReattachAll(sv: SwarmView, anchor: Point, capacity: real)
    requires Inv(sv, capacity) && anchor.y == CatheterY && !NoneWaiting(sv.coaches)
    ensures Inv(sv.(coaches := ReattachAll(sv.coaches, anchor)), capacity)
  {
    var vs := sv.coaches;
    var ws := ReattachAll(vs, anchor);
    forall k | 0 <= k < |vs| ensures CoachOk(ws[k], capacity) && ws[k].deliveredAmount == vs[k].deliveredAmount {
      ReattachKeepsOk(vs[k], anchor, capacity);
    }
    SumDeliveredSame(vs, ws);
  }

  lemma InvAttach(sv: SwarmView, capacity: real)
    requires Inv(sv, capacity)
    ensures Inv(AttachStep(sv), capacity)
  {
    var vs := sv.coaches;
    if !NoneWaiting(vs) && Leader(vs).Some? && Back(vs).Some? {
      var b := Back(vs).value;
      InvReattachAll(sv, Point(vs[b].x - CoachSpacing, vs[b].y), capacity);
    }
  }

  lemma InvExit(sv: SwarmView, capacity: real)
    requires Inv(sv, capacity)
    ensures Inv(ExitStep(sv), capacity)
  {
    if sv.state == Exiting {
      SumDeliveredSame(sv.coaches, Retreat(sv.coaches));
    }
  }

  /** The treatment steps never touch the frame counter or the clock. */
  lemma StepsKeepClock(sv: SwarmView)
    ensures MoveStep(sv).frame == sv.frame && MoveStep(sv).time == sv.time
    ensures DeliverStep(sv).frame == sv.frame && DeliverStep(sv).time == sv.time
    ensures AttachStep(sv).frame == sv.frame && AttachStep(sv).time == sv.time
    ensures ExitStep(sv).frame == sv.frame && ExitStep(sv).time == sv.time && ExitStep(sv).total == sv.total
    ensures ExitStep(sv).effect == sv.effect
  {
  }

  /** One frame keeps the invariant, advances the frame by exactly one, keeps the
      medicine effect non-negative, and once the clot has dissolved leaves the
      swarm EXITING or COMPLETE (COMPLETE only with the train back and nobody
      waiting). COMPLETE is not absorbing: the next frame passes through EXITING. */
  lemma UpdateFacts(sv: SwarmView, capacity: real)
    requires Inv(sv, capacity)
    ensures var r := UpdateStep(sv);
      && Inv(r, capacity)
      && r.frame == sv.frame + 1
      && r.time == sv.frame as real / FramesPerSecond
      && r.effect >= 0.0
      && (sv.clot.size <= 0.0 ==> r.state == Exiting || r.state == Complete)
      && (r.state == Complete ==> AllBack(r.coaches) && NoneWaiting(r.coaches))
      && (sv.clot.size <= 0.0 ==> r.total == sv.total)
      && (sv.state == Complete ==> Prepare(sv).state == Exiting)
  {
    var s1 := Prepare(sv);
    assert Inv(s1, capacity);
    var s2 := Treat(s1);
    if Active(s1.state) {
      InvMove(s1, capacity);
      InvDeliver(MoveStep(s1), capacity);
      InvAttach(DeliverStep(MoveStep(s1)), capacity);
      StepsKeepClock(s1);
      StepsKeepClock(MoveStep(s1));
      StepsKeepClock(DeliverStep(MoveStep(s1)));
    }
    assert Inv(s2, capacity);
    assert s2.frame == sv.frame && s2.time == s1.time;
    assert sv.clot.size <= 0.0 ==> s2 == s1 && s1.state == Exiting;
    var s3 := ExitStep(s2);
    InvExit(s2, capacity);
    ExitFacts(s2);
    StepsKeepClock(s2);
  }

  // ---------------------------------------------------------------------------
  // The swarm as the script holds it

  /** The five coaches C1..C5 the swarm starts with: fresh, distinct, in
      formation 35 apart from the catheter, each full. */
  method MakeCoaches(capacity: real) returns (cs: seq<NanobotCoach>)
    ensures |cs| == CoachCount
    ensures forall k :: 0 <= k < CoachCount ==> fresh(cs[k]) && cs[k].View() == InitialCoach(k, capacity)
    ensures forall a, b :: 0 <= a < b < CoachCount ==> cs[a] != cs[b]
  {
    cs := [];
    var pos: nat := 0;
    while pos < CoachCount
      invariant pos <= CoachCount && |cs| == pos
      invariant forall k :: 0 <= k < pos ==> fresh(cs[k]) && cs[k].View() == InitialCoach(k, capacity)
      invariant forall a, b :: 0 <= a < b < pos ==> cs[a] != cs[b]
    {
      var coach := new NanobotCoach(Labels[pos], pos, CatheterX + pos as real * CoachSpacing, CatheterY, capacity);
      cs := cs + [coach];
      pos := pos + 1;
    }
  }

  class MetroTrainSwarm {
    const coaches: seq<NanobotCoach>
    const clot: ClotModel
    const medicinePerCoach: real
    const clotRequired: real
    const medicineThreshold: real
    const maxFrames: nat
    var time: real
    var frame: nat
    var deliveryLog: seq<LogEntry<ClotReading>>
    var totalMedicineApplied: real
    var currentState: SwarmState
    var deliveryCycleCount: nat
    var medicineEffect: real

    function Views(): (vs: seq<CoachState>)
      reads coaches
      ensures |vs| == |coaches| && forall k :: 0 <= k < |coaches| ==> vs[k] == coaches[k].View()
    {
      seq(|coaches|, k requires 0 <= k < |coaches| reads coaches => coaches[k].View())
    }

    function Snapshot(): SwarmView
      reads this, coaches, clot
    {
      SwarmView(Views(), clot.Reading(), deliveryLog, totalMedicineApplied, currentState,
                deliveryCycleCount, medicineEffect, frame, time)
    }

    ghost predicate Distinct() {
      forall a, b :: 0 <= a < b < |coaches| ==> coaches[a] != coaches[b]
    }

    ghost predicate Valid()
      reads this, coaches, clot
    {
      && Distinct()
      && medicinePerCoach > 0.0
      && Inv(Snapshot(), medicinePerCoach)
    }

    constructor (medicinePerCoach: real, clotRequired: real)
      requires medicinePerCoach > 0.0
      ensures Valid()
      ensures Snapshot() == InitialView(medicinePerCoach)
      ensures this.medicinePerCoach == medicinePerCoach && this.clotRequired == clotRequired
      ensures medicineThreshold == clotRequired + 2.0 && maxFrames == 3500
    {
      var cs := MakeCoaches(medicinePerCoach);
      coaches := cs;
      clot := new ClotModel();
      this.medicinePerCoach := medicinePerCoach;
      this.clotRequired := clotRequired;
      medicineThreshold := clotRequired + 2.0;
      time, frame, maxFrames := 0.0, 0, 3500;
      deliveryLog, totalMedicineApplied := [], 0.0;
      currentState, deliveryCycleCount, medicineEffect := Entering, 0, 0.0;
      new;
      assert Views() == InitialView(medicinePerCoach).coaches;
      assert Snapshot() == InitialView(medicinePerCoach);
      InitialValid(medicinePerCoach);
    }

    /** get_formation, as indices into the coach list. */
    function GetFormation(): (r: seq<nat>)
      reads coaches
      ensures forall k :: 0 <= k < |r| ==> r[k] < |coaches| && coaches[r[k]].inFormation
      ensures forall k :: 0 <= k < |coaches| && coaches[k].inFormation ==> k in r
      ensures forall a, b :: 0 <= a < b < |r| ==> coaches[r[a]].x <= coaches[r[b]].x
      ensures forall a, b :: 0 <= a < b < |r| ==> r[a] != r[b]
    {
      FormationOrder(Views())
    }

    /** get_waiting_coaches, as indices into the coach list. */
    function GetWaitingCoaches(): (r: seq<nat>)
      reads coaches
      ensures forall k :: 0 <= k < |r| ==> r[k] < |coaches| && coaches[r[k]].atClot
      ensures forall k :: 0 <= k < |coaches| && coaches[k].atClot ==> k in r
    {
      Members(WaitingFlags(Views()), |coaches|)
    }

    /** get_leader: the rightmost coach of the train, or None without a train. */
    function GetLeader(): (r: Option<nat>)
      reads coaches
      ensures r.None? <==> forall k :: 0 <= k < |coaches| ==> !coaches[k].inFormation
      ensures r.Some? ==> r.value < |coaches| && coaches[r.value].inFormation
      ensures r.Some? ==> forall k :: 0 <= k < |coaches| && coaches[k].inFormation ==> coaches[k].x <= coaches[r.value].x
    {
      Leader(Views())
    }

    method AdvanceFormation(vx: real)
      requires Distinct()
      modifies coaches
      ensures Views() == Advance(old(Views()), vx)
    {
      var k := 0;
      while k < |coaches|
        invariant 0 <= k <= |coaches|
        invariant forall j :: 0 <= j < k ==> coaches[j].View() == Moved(old(coaches[j].View()), vx)
        invariant forall j :: k <= j < |coaches| ==> coaches[j].View() == old(coaches[j].View())
      {
        if coaches[k].inFormation {
          coaches[k].UpdatePosition(vx);
        }
        k := k + 1;
      }
    }

    method MoveFormation()
      requires Valid()
      modifies coaches, this
      ensures Valid()
      ensures Snapshot() == MoveStep(old(Snapshot()))
    {
      ghost var before := Snapshot();
      InvMove(before, medicinePerCoach);
      MoveFormationStep(before);
    }

    /** The branches of move_formation, stated on the view. */
    method MoveFormationStep(ghost before: SwarmView)
      requires Distinct() && before == Snapshot()
      modifies coaches, this
      ensures Snapshot() == MoveStep(before)
    {
      var leader := GetLeader();
      if leader.None? {
        return;
      }
      var lx := coaches[leader.value].x;
      if currentState == Entering {
        if lx < CatheterX + 60.0 {
          AdvanceFormation(3.0);
          assert MoveStep(before) == before.(coaches := Advance(before.coaches, 3.0));
        } else {
          SetState(Approaching, before);
          assert MoveStep(before) == before.(state := Approaching);
        }
      } else if currentState == Approaching {
        var distanceToTarget := TargetX - lx;
        if distanceToTarget > 5.0 {
          AdvanceFormation(ApproachSpeed(distanceToTarget));
          assert MoveStep(before) == before.(coaches := Advance(before.coaches, ApproachSpeed(distanceToTarget)));
        } else {
          SetState(Delivering, before);
          assert MoveStep(before) == before.(state := Delivering);
        }
      } else {
        assert MoveStep(before) == before;
      }
      assert Snapshot() == MoveStep(before);
    }

    /** Switches the state machine to `next` and touches nothing else. */
    method SetState(next: SwarmState, ghost sv: SwarmView)
      requires sv == Snapshot()
      modifies this
      ensures Snapshot() == sv.(state := next)
    {
      currentState := next;
      assert Views() == sv.coaches;
    }

    /** The leader hands out one dose: to the total, the effect, the clot and the log. */
    method DispenseFromLeader(l: nat, ghost sv: SwarmView)
      requires Distinct() && l < |coaches| && sv == Snapshot()
      modifies this, coaches[l], clot
      ensures Snapshot() == Booked(sv.(coaches := sv.coaches[l := Dispensed(sv.coaches[l], MlPerFrame)]),
                                   sv.coaches[l].coachLabel, DoseOf(sv.coaches[l], MlPerFrame))
    {
      ghost var vs := sv.coaches[l := Dispensed(sv.coaches[l], MlPerFrame)];
      var dispensed := DispenseCoach(l, sv.coaches);
      assert Snapshot() == sv.(coaches := vs);
      RecordDose(coaches[l].coachLabel, dispensed, sv.(coaches := vs));
    }

    /** Coach `l` hands out its dose. */
    method DispenseCoach(l: nat, ghost vs: seq<CoachState>) returns (dispensed: real)
      requires Distinct() && l < |coaches| && vs == Views()
      modifies coaches[l]
      ensures dispensed == DoseOf(vs[l], MlPerFrame)
      ensures Views() == vs[l := Dispensed(vs[l], MlPerFrame)]
    {
      dispensed := coaches[l].DispenseMedicine(MlPerFrame);
      assert Views() == vs[l := coaches[l].View()];
    }

    /** The swarm's account of a dose: total, effect, clot and log. */
    method RecordDose(coachName: string, dispensed: real, ghost sv: SwarmView)
      requires sv == Snapshot()
      modifies this, clot
      ensures Snapshot() == Booked(sv, coachName, dispensed)
    {
      ApplyDose(dispensed, sv);
      LogDose(coachName, dispensed, Snapshot());
    }

    /** The dose is added to the total and the effect and dissolves the clot. */
    method ApplyDose(dispensed: real, ghost sv: SwarmView)
      requires sv == Snapshot()
      modifies this, clot
      ensures Snapshot() == sv.(total := sv.total + dispensed, effect := sv.effect + dispensed,
                                clot := Dissolve(sv.clot, dispensed))
    {
      totalMedicineApplied := totalMedicineApplied + dispensed;
      medicineEffect := medicineEffect + dispensed;
      clot.ApplyMedicine(dispensed);
      assert Views() == sv.coaches;
    }

    /** The dose is credited in the log with the new total and clot reading. */
    method LogDose(coachName: string, dispensed: real, ghost sv: SwarmView)
      requires sv == Snapshot()
      modifies this
      ensures Snapshot() == sv.(log := Record(sv.log, LogEntry(sv.frame, sv.time, coachName, 0.0, sv.total, sv.clot), dispensed))
    {
      var entry := LogEntry(frame, time, coachName, 0.0, totalMedicineApplied, clot.Reading());
      deliveryLog := Record(deliveryLog, entry, dispensed);
      assert Views() == sv.coaches;
    }

    /** The empty leader leaves the train and waits at the clot. */
    method DetachLeader(l: nat, ghost sv: SwarmView)
      requires Distinct() && l < |coaches| && sv == Snapshot()
      modifies this, coaches[l]
      ensures Snapshot() == sv.(coaches := sv.coaches[l := sv.coaches[l].(inFormation := false, atClot := true,
                                                  x := TargetX, y := TargetY, target := None)],
                                cycles := sv.cycles + 1, state := Approaching)
    {
      var c := coaches[l];
      c.inFormation, c.atClot := false, true;
      c.x, c.y := TargetX, TargetY;
      c.target := None;
      deliveryCycleCount := deliveryCycleCount + 1;
      currentState := Approaching;
      assert Views() == sv.coaches[l := c.View()];
    }

    method DeliverMedicineToClot()
      requires Valid()
      modifies this, coaches, clot
      ensures Valid()
      ensures Snapshot() == DeliverStep(old(Snapshot()))
    {
      ghost var before := Snapshot();
      InvDeliver(before, medicinePerCoach);
      if currentState != Delivering || clot.sizePercent <= 0.0 {
        return;
      }
      var leader := GetLeader();
      if leader.None? {
        return;
      }
      var l := leader.value;
      if Abs(TargetX - coaches[l].x) <= 15.0 {
        if coaches[l].medicineCurrent > 0.0 {
          DeliverDispenseCase(before, l);
          DispenseFromLeader(l, before);
        } else {
          DeliverDetachCase(before, l);
          DetachLeader(l, before);
        }
      } else {
        assert DeliverStep(before) == before;
      }
    }

    /** The loop over the waiting coaches, each gliding toward its target. */
    method ReattachWaiting(anchor: Point, ghost vs: seq<CoachState>)
      requires Distinct() && vs == Views() && anchor.y == CatheterY
      requires forall k :: 0 <= k < |vs| ==> CoachOk(vs[k], medicinePerCoach)
      modifies coaches
      ensures Views() == ReattachAll(vs, anchor)
    {
      var k := 0;
      while k < |coaches|
        invariant 0 <= k <= |coaches|
        invariant forall j :: 0 <= j < k ==> coaches[j].View() == ReattachOne(vs[j], anchor)
        invariant forall j :: k <= j < |coaches| ==> coaches[j].View() == vs[j]
      {
        ReattachCoach(coaches[k], anchor);
        k := k + 1;
      }
      assert Views() == ReattachAll(vs, anchor);
    }

    /** One pass of that loop: a waiting coach is given its target once and glides toward it. */
    static method ReattachCoach(coach: NanobotCoach, anchor: Point)
      requires anchor.y == CatheterY && coach.y == CatheterY
      requires coach.target.Some? ==> coach.target.value.y == CatheterY
      modifies coach
      ensures coach.View() == ReattachOne(old(coach.View()), anchor)
    {
      if coach.atClot {
        if !coach.reattaching {
          coach.target := Some(anchor);
          coach.reattaching := true;
        }
        var reached := coach.MoveToPosition(coach.target, 2.0);
        if reached {
          coach.atClot, coach.inFormation, coach.reattaching := false, true, false;
        }
      }
    }

    method AttachWaitingCoaches()
      requires Valid()
      modifies coaches
      ensures Valid()
      ensures Snapshot() == AttachStep(old(Snapshot()))
    {
      ghost var before := Snapshot();
      InvAttach(before, medicinePerCoach);
      if NoneWaiting(Views()) {
        return;
      }
      var leader := GetLeader();
      if leader.None? {
        return;
      }
      if Abs(TargetX - coaches[leader.value].x) > 100.0 {
        return;
      }
      var b := Back(Views()).value;
      var anchor := Point(coaches[b].x - CoachSpacing, coaches[b].y);
      assert anchor == Point(before.coaches[b].x - CoachSpacing, before.coaches[b].y);
      AttachActsCase(before, leader.value, b);
      ReattachWaiting(anchor, before.coaches);
      assert Snapshot() == before.(coaches := Views());
    }

    method CheckClotDissolved()
      requires Valid()
      modifies this
      ensures Valid()
      ensures Snapshot() == CheckStep(old(Snapshot()))
    {
      if clot.IsDissolved() {
        currentState := Exiting;
      }
    }

    /** Every coach of the train right of catheter_x + 25 moves back by 4. */
    method RetreatFormation(ghost vs: seq<CoachState>)
      requires Distinct() && vs == Views()
      modifies coaches
      ensures Views() == Retreat(vs)
    {
      var k := 0;
      while k < |coaches|
        invariant 0 <= k <= |coaches|
        invariant forall j :: 0 <= j < k ==> coaches[j].View() == Retreated(vs[j])
        invariant forall j :: k <= j < |coaches| ==> coaches[j].View() == vs[j]
      {
        if coaches[k].inFormation && coaches[k].x > CatheterX + 25.0 {
          coaches[k].UpdatePosition(-4.0);
        }
        k := k + 1;
      }
      assert Views() == Retreat(vs);
    }

    method ExitTreatment()
      requires Valid()
      modifies this, coaches
      ensures Valid()
      ensures Snapshot() == ExitStep(old(Snapshot()))
    {
      ghost var before := Snapshot();
      InvExit(before, medicinePerCoach);
      if currentState != Exiting {
        return;
      }
      RetreatFormation(before.coaches);
      if AllBack(Views()) && NoneWaiting(Views()) {
        currentState := Complete;
      }
      assert Snapshot() == ExitStep(before);
    }

    /** The start of update: the clock and the check for a dissolved clot. */
    method StartFrame()
      requires Valid()
      modifies this
      ensures Valid()
      ensures Snapshot() == Prepare(old(Snapshot()))
    {
      ghost var before := Snapshot();
      time := frame as real / FramesPerSecond;
      assert Snapshot() == before.(time := before.frame as real / FramesPerSecond);
      if clot.sizePercent <= 0.0 {
        CheckClotDissolved();
      }
    }

    /** Moving, delivering and reattaching while in treatment. */
    method TreatmentPhase()
      requires Valid()
      modifies this, coaches, clot
      ensures Valid()
      ensures Snapshot() == Treat(old(Snapshot()))
    {
      if Active(currentState) {
        MoveFormation();
        DeliverMedicineToClot();
        AttachWaitingCoaches();
      }
    }

    /** The end of update: the medicine effect decays and the frame advances. */
    method FinishFrame()
      requires Valid()
      modifies this
      ensures Valid()
      ensures Snapshot() == Finish(old(Snapshot()))
    {
      ghost var before := Snapshot();
      medicineEffect := Max(0.0, medicineEffect - EffectDecay);
      frame := frame + 1;
      assert Snapshot() == Finish(before);
    }

    method Update()
      requires Valid()
      modifies this, coaches, clot
      ensures Valid()
      ensures Snapshot() == UpdateStep(old(Snapshot()))
    {
      StartFrame();
      TreatmentPhase();
      ExitTreatment();
      FinishFrame();
    }

    /** is_complete: once COMPLETE, the whole train is back and nobody waits. */
    function IsComplete(): (r: bool)
      reads this, coaches, clot
      requires Valid()
      ensures r ==> AllBack(Views()) && NoneWaiting(Views())
    {
      currentState == Complete
    }
  }
}
