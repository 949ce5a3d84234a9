/** Model of run_nanobot_realistic.py: one nanobot with acceleration-limited
    motion and a SEARCHING → APPROACHING → CLEARING → CONTINUING state machine,
    driven along a vein holding three full-width clogs.

    The nanobot and the vein are classes whose methods update their fields as
    the script does; every method is specified by a pure function on a
    snapshot (`BotState`, the clog list), and the sensor fusion, the clog
    searches and the three field getters are pure functions of the clog list.
    The sensor rings are sampled through the field getters; only the
    trigonometry that places the sensors is not modelled, so the sensor
    offsets are given. */
module NanobotRealistic {
  import opened Basics
  import opened Numeric

  // ---------------------------------------------------------------------------
  // Constants fixed by the constructors and the main loop

  const MaxVelocity: real := 3.5
  const MaxAcceleration: real := 0.15
  const ClearingTimeNeeded: nat := 200
  const VeinTop: real := 200.0
  const VeinBottom: real := 450.0
  const NormalViscosity: real := 4.5
  const BaseReflectance: real := 0.08
  const BaseResistance: real := 1.0
  const NumFrames: nat := 900
  /** Target once no uncleared clog lies ahead. */
  const FinalTargetX: real := 850.0

  // ---------------------------------------------------------------------------
  // Clogs and the vein environment

  datatype Clog = Clog(centerX: real, density: real, cleared: bool)

  function InitialClogs(): (cs: seq<Clog>)
    ensures |cs| == 3 && forall i :: 0 <= i < 3 ==> cs[i].density == 1.0 && !cs[i].cleared
  {
    [Clog(300.0, 1.0, false), Clog(550.0, 1.0, false), Clog(750.0, 1.0, false)]
  }

  /** The first clog from index `i` on that satisfies `p`: the loop with an
      early `return` shared by the clog searches. */
  function FirstFrom(cs: seq<Clog>, p: Clog -> bool, i: nat): (r: Option<nat>)
    requires i <= |cs|
    ensures r.Some? ==> i <= r.value < |cs| && p(cs[r.value])
    ensures r.Some? ==> forall j :: i <= j < r.value ==> !p(cs[j])
    ensures r.None? ==> forall j :: i <= j < |cs| ==> !p(cs[j])
    decreases |cs| - i
  {
    if i == |cs| then None
    else if p(cs[i]) then Some(i)
    else FirstFrom(cs, p, i + 1)
  }

  predicate Ahead(c: Clog, x: real) {
    !c.cleared && x < c.centerX
  }

  /** `get_current_clog`: the index of the first uncleared clog whose centre
      lies beyond `x`, or none. */
  function GetCurrentClog(cs: seq<Clog>, x: real): (r: Option<nat>)
    ensures r.Some? ==> r.value < |cs| && !cs[r.value].cleared && x < cs[r.value].centerX
    ensures r.Some? ==> forall j :: 0 <= j < r.value ==> cs[j].cleared || cs[j].centerX <= x
    ensures r.None? <==> forall j :: 0 <= j < |cs| ==> cs[j].cleared || cs[j].centerX <= x
  {
    FirstFrom(cs, c => Ahead(c, x), 0)
  }

  predicate InZone(c: Clog, x: real, y: real) {
    !c.cleared && Abs(x - c.centerX) < 80.0 && VeinTop <= y <= VeinBottom
  }

  /** `is_in_clog_zone`: the index of the first uncleared clog within 80 of
      `x`, provided `y` lies between the vein walls; the clog is named by its
      index in the list. */
  function IsInClogZone(cs: seq<Clog>, x: real, y: real): (r: Option<nat>)
    ensures r.Some? ==> r.value < |cs| && !cs[r.value].cleared && Abs(x - cs[r.value].centerX) < 80.0
    ensures r.Some? ==> VeinTop <= y <= VeinBottom
    ensures r.Some? ==> forall j :: 0 <= j < r.value ==> !InZone(cs[j], x, y)
    ensures r.None? <==> forall j :: 0 <= j < |cs| ==> !InZone(cs[j], x, y)
    ensures !(VeinTop <= y <= VeinBottom) ==> r.None?
  {
    FirstFrom(cs, c => InZone(c, x, y), 0)
  }

  /** A clog counts for the field getters when it is uncleared and within 100. */
  predicate InRange(c: Clog, x: real) {
    !c.cleared && Abs(x - c.centerX) < 100.0
  }

  /** `scale * density * max(0, 1 - |x - cx| / 80)`. */
  function Increase(c: Clog, x: real, scale: real): real {
    scale * c.density * Max(0.0, 1.0 - Abs(x - c.centerX) / 80.0)
  }

  /** The running maximum `max_increase` of a field getter after the loop
      over `cs`, starting from 0: it is the largest increase of a clog in
      range, or 0 when that is larger or no clog is in range. */
  function MaxIncrease(cs: seq<Clog>, x: real, scale: real): (r: real)
    ensures r >= 0.0
    ensures forall j :: 0 <= j < |cs| && InRange(cs[j], x) ==> Increase(cs[j], x, scale) <= r
    ensures r == 0.0 || exists j :: 0 <= j < |cs| && InRange(cs[j], x) && r == Increase(cs[j], x, scale)
  {
    if cs == [] then 0.0
    else
      var n := |cs| - 1;
      var m := MaxIncrease(cs[..n], x, scale);
      assert forall j :: 0 <= j < n ==> cs[..n][j] == cs[j];
      if InRange(cs[n], x) then Max(m, Increase(cs[n], x, scale)) else m
  }

  predicate DensitiesOk(cs: seq<Clog>) {
    forall j :: 0 <= j < |cs| ==> 0.0 <= cs[j].density <= 1.0
  }

  /** With a density in [0,1] an increase is at most the getter's scale. */
  lemma IncreaseAtMostScale(c: Clog, x: real, scale: real)
    requires 0.0 <= c.density <= 1.0 && scale >= 0.0
    ensures Increase(c, x, scale) <= scale
  {
    var prox := Max(0.0, 1.0 - Abs(x - c.centerX) / 80.0);
    var sd := scale * c.density;
    assert 0.0 <= prox <= 1.0;
    assert scale - sd == scale * (1.0 - c.density);
    ProductNonNegativeOrZero(scale, 1.0 - c.density);
    ProductNonNegativeOrZero(c.density, scale);
    assert sd - sd * prox == sd * (1.0 - prox);
    ProductNonNegativeOrZero(sd, 1.0 - prox);
  }

  lemma ProductNonNegativeOrZero(a: real, b: real)
    requires a >= 0.0 && b >= 0.0
    ensures a * b >= 0.0
  {
    if b > 0.0 {
      ProductNonNegative(a, b);
    }
  }

  /** With densities in [0,1] the maximum increase is at most the getter's scale. */
  lemma MaxIncreaseAtMostScale(cs: seq<Clog>, x: real, scale: real)
    requires DensitiesOk(cs) && scale >= 0.0
    ensures MaxIncrease(cs, x, scale) <= scale
  {
    var r := MaxIncrease(cs, x, scale);
    if r != 0.0 {
      var j :| 0 <= j < |cs| && InRange(cs[j], x) && r == Increase(cs[j], x, scale);
      IncreaseAtMostScale(cs[j], x, scale);
    }
  }

  /** `get_viscosity_at_position`: 4.5 plus the largest increase `45 * density * proximity`. */
  function GetViscosityAtPosition(cs: seq<Clog>, x: real, y: real): (r: real)
    ensures r >= NormalViscosity
    ensures (forall j :: 0 <= j < |cs| ==> !InRange(cs[j], x)) ==> r == NormalViscosity
    ensures forall j :: 0 <= j < |cs| && InRange(cs[j], x) ==> r >= NormalViscosity + Increase(cs[j], x, 45.0)
  {
    NormalViscosity + MaxIncrease(cs, x, 45.0)
  }

  /** `get_optical_reflectance`: 0.08 plus the largest increase `0.85 * density * proximity`. */
  function GetOpticalReflectance(cs: seq<Clog>, x: real, y: real): (r: real)
    ensures r >= BaseReflectance
    ensures (forall j :: 0 <= j < |cs| ==> !InRange(cs[j], x)) ==> r == BaseReflectance
    ensures forall j :: 0 <= j < |cs| && InRange(cs[j], x) ==> r >= BaseReflectance + Increase(cs[j], x, 0.85)
  {
    BaseReflectance + MaxIncrease(cs, x, 0.85)
  }

  /** `get_flow_resistance`: 1.0 plus the largest increase `95 * density * proximity`. */
  function GetFlowResistance(cs: seq<Clog>, x: real, y: real): (r: real)
    ensures r >= BaseResistance
    ensures (forall j :: 0 <= j < |cs| ==> !InRange(cs[j], x)) ==> r == BaseResistance
    ensures forall j :: 0 <= j < |cs| && InRange(cs[j], x) ==> r >= BaseResistance + Increase(cs[j], x, 95.0)
  {
    BaseResistance + MaxIncrease(cs, x, 95.0)
  }

  class VeinEnvironment {
    const width: real
    const height: real
    const veinTop: real
    const veinBottom: real
    var clogs: seq<Clog>

    constructor (w: real, h: real)
      ensures width == w && height == h
      ensures veinTop == VeinTop && veinBottom == VeinBottom
      ensures clogs == InitialClogs()
    {
      width, height := w, h;
      veinTop, veinBottom := VeinTop, VeinBottom;
      clogs := InitialClogs();
    }
  }

  // ---------------------------------------------------------------------------
  // Sensor fusion (update_sensors, after the sampling)

  /** The three averaged readings, Python's `sensor_data`. */
  datatype SensorData = SensorData(viscosity: real, reflectance: real, resistance: real)

  datatype Signals = Signals(visc: real, refl: real, res: real)

  function Normalised(d: SensorData): Signals {
    Signals(Min(1.0, (d.viscosity - NormalViscosity) / 45.0),
            Min(1.0, d.reflectance / 0.85),
            Min(1.0, (d.resistance - BaseResistance) / 95.0))
  }

  /** The outcome of fusion; a distance of `None` is Python's `float('inf')`. */
  datatype Detection = Detection(detected: bool, signal: real, distance: Option<real>)

  function Indicator(b: bool): nat {
    if b then 1 else 0
  }

  /** The multi-modal rule: a clog is detected when at least two signals exceed 0.3. */
  function Fuse(d: SensorData): Detection {
    var s := Normalised(d);
    var count := Indicator(s.visc > 0.3) + Indicator(s.refl > 0.3) + Indicator(s.res > 0.3);
    if count >= 2 then Detection(true, (s.visc + s.refl + s.res) / 3.0, Some(Max(0.0, d.resistance - 5.0)))
    else Detection(false, Max(Max(s.visc, s.refl), s.res), None)
  }

  /** Detection holds exactly when two of the three signals agree; the signal is
      then their mean, otherwise their maximum with an infinite distance; every
      signal is at most 1, and readings at or above their bases make every
      signal non-negative and a detected signal above 0.2. */
  lemma FusionFacts(d: SensorData)
    ensures var s, r := Normalised(d), Fuse(d);
      && s.visc <= 1.0 && s.refl <= 1.0 && s.res <= 1.0
      && (r.detected <==> (s.visc > 0.3 && s.refl > 0.3) || (s.visc > 0.3 && s.res > 0.3) || (s.refl > 0.3 && s.res > 0.3))
      && (r.detected ==> r.signal == (s.visc + s.refl + s.res) / 3.0 && r.signal <= 1.0)
      && (r.detected ==> r.distance == Some(Max(0.0, d.resistance - 5.0)))
      && (!r.detected ==> r.distance.None? && r.signal >= s.visc && r.signal >= s.refl && r.signal >= s.res)
      && (!r.detected ==> r.signal == s.visc || r.signal == s.refl || r.signal == s.res)
    ensures d.viscosity >= NormalViscosity && d.reflectance >= 0.0 && d.resistance >= BaseResistance ==>
      var s, r := Normalised(d), Fuse(d);
      && s.visc >= 0.0 && s.refl >= 0.0 && s.res >= 0.0
      && (r.detected ==> r.signal > 0.2)
  {
  }

  // ---------------------------------------------------------------------------
  // Sensor sampling (update_sensors, the three sensor rings)

  /** The sensor offsets from the bot's centre, `(k * 18 * cos a, k * 18 * sin a)`:
      the viscosity ring at every 45 degrees with k = 1, the optical ring at
      every 90 degrees with k = 1.5 and the resistance ring at every 60 degrees
      with k = 2. The trigonometry is not modelled, so the offsets are given. */
  datatype Rings = Rings(visc: seq<(real, real)>, refl: seq<(real, real)>, res: seq<(real, real)>)

  /** Eight viscosity, four optical and six resistance sensors. */
  predicate RingsOk(g: Rings) {
    |g.visc| == 8 && |g.refl| == 4 && |g.res| == 6
  }

  datatype Field = Viscosity | Reflectance | Resistance

  /** The vein's getter for one field. */
  function FieldAt(cs: seq<Clog>, f: Field, x: real, y: real): real {
    match f
    case Viscosity => GetViscosityAtPosition(cs, x, y)
    case Reflectance => GetOpticalReflectance(cs, x, y)
    case Resistance => GetFlowResistance(cs, x, y)
  }

  function Base(f: Field): real {
    match f
    case Viscosity => NormalViscosity
    case Reflectance => BaseReflectance
    case Resistance => BaseResistance
  }

  function Scale(f: Field): real {
    match f
    case Viscosity => 45.0
    case Reflectance => 0.85
    case Resistance => 95.0
  }

  /** A ring's sensor positions around the bot at `(x, y)`. */
  function SensorPositions(x: real, y: real, offsets: seq<(real, real)>): (pts: seq<(real, real)>)
    ensures |pts| == |offsets|
  {
    if offsets == [] then []
    else
      var n := |offsets| - 1;
      SensorPositions(x, y, offsets[..n]) + [(x + offsets[n].0, y + offsets[n].1)]
  }

  /** The getter of one field as a function of the sensor position. */
  function Reader(cs: seq<Clog>, f: Field): ((real, real)) -> real {
    (p: (real, real)) => FieldAt(cs, f, p.0, p.1)
  }

  /** The samples one ring appends, one reading per sensor position. */
  function Samples(read: ((real, real)) -> real, pts: seq<(real, real)>): (r: seq<real>)
    ensures |r| == |pts|
  {
    if pts == [] then []
    else
      var n := |pts| - 1;
      Samples(read, pts[..n]) + [read(pts[n])]
  }

  function Mean(xs: seq<real>): real
    requires xs != []
  {
    Sum(xs) / |xs| as real
  }

  /** `sensor_data`: the three ring averages. */
  function Sampled(cs: seq<Clog>, x: real, y: real, g: Rings): SensorData
    requires RingsOk(g)
  {
    SensorData(Mean(Samples(Reader(cs, Viscosity), SensorPositions(x, y, g.visc))),
               Mean(Samples(Reader(cs, Reflectance), SensorPositions(x, y, g.refl))),
               Mean(Samples(Reader(cs, Resistance), SensorPositions(x, y, g.res))))
  }

  /** With densities in [0,1] a getter reads between its base and base plus
      its scale, and exactly its base once every clog is cleared. */
  lemma FieldBounds(cs: seq<Clog>, f: Field, x: real, y: real)
    requires DensitiesOk(cs)
    ensures Base(f) <= FieldAt(cs, f, x, y) <= Base(f) + Scale(f)
    ensures (forall j :: 0 <= j < |cs| ==> cs[j].cleared) ==> FieldAt(cs, f, x, y) == Base(f)
  {
    MaxIncreaseAtMostScale(cs, x, Scale(f));
  }

  /** The k-th sensor of a ring sits at the bot's position plus the k-th offset. */
  lemma {:induction false} PositionAt(x: real, y: real, offsets: seq<(real, real)>, k: nat)
    requires k < |offsets|
    ensures SensorPositions(x, y, offsets)[k] == (x + offsets[k].0, y + offsets[k].1)
  {
    var n := |offsets| - 1;
    if k < n {
      PositionAt(x, y, offsets[..n], k);
    }
  }

  /** One more sensor appends one more sample. */
  lemma SamplesSnoc(read: ((real, real)) -> real, pts: seq<(real, real)>, k: nat)
    requires k < |pts|
    ensures Samples(read, pts[..k + 1]) == Samples(read, pts[..k]) + [read(pts[k])]
  {
    assert pts[..k + 1][..k] == pts[..k];
  }

  /** A ring's loop step: reading the k-th sensor extends the samples so far. */
  lemma RingStep(read: ((real, real)) -> real, x: real, y: real, offsets: seq<(real, real)>, k: nat,
                 samples: seq<real>, sample: real)
    requires k < |offsets|
    requires samples == Samples(read, SensorPositions(x, y, offsets)[..k])
    requires sample == read((x + offsets[k].0, y + offsets[k].1))
    ensures samples + [sample] == Samples(read, SensorPositions(x, y, offsets)[..k + 1])
  {
    PositionAt(x, y, offsets, k);
    SamplesSnoc(read, SensorPositions(x, y, offsets), k);
  }

  /** The k-th sample is read at the k-th sensor position. */
  lemma {:induction false} SamplesAt(read: ((real, real)) -> real, pts: seq<(real, real)>, k: nat)
    requires k < |pts|
    ensures Samples(read, pts)[k] == read(pts[k])
  {
    var n := |pts| - 1;
    if k < n {
      SamplesAt(read, pts[..n], k);
    }
  }

  lemma SamplesBounds(cs: seq<Clog>, f: Field, pts: seq<(real, real)>)
    requires DensitiesOk(cs)
    ensures forall k :: 0 <= k < |pts| ==> Base(f) <= Samples(Reader(cs, f), pts)[k] <= Base(f) + Scale(f)
    ensures (forall j :: 0 <= j < |cs| ==> cs[j].cleared) ==>
      forall k :: 0 <= k < |pts| ==> Samples(Reader(cs, f), pts)[k] == Base(f)
  {
    var r := Samples(Reader(cs, f), pts);
    forall k | 0 <= k < |r|
      ensures Base(f) <= r[k] <= Base(f) + Scale(f)
      ensures (forall j :: 0 <= j < |cs| ==> cs[j].cleared) ==> r[k] == Base(f)
    {
      SamplesAt(Reader(cs, f), pts, k);
      FieldBounds(cs, f, pts[k].0, pts[k].1);
    }
  }

  /** A sum of terms in [lo, hi] lies in [|xs| * lo, |xs| * hi]. */
  lemma {:induction false} SumBetween(xs: seq<real>, lo: real, hi: real)
    requires forall k :: 0 <= k < |xs| ==> lo <= xs[k] <= hi
    ensures |xs| as real * lo <= Sum(xs) <= |xs| as real * hi
  {
    if xs != [] {
      SumBetween(xs[..|xs| - 1], lo, hi);
    }
  }

  /** A mean of terms in [lo, hi] lies in [lo, hi]. */
  lemma MeanBetween(xs: seq<real>, lo: real, hi: real)
    requires xs != []
    requires forall k :: 0 <= k < |xs| ==> lo <= xs[k] <= hi
    ensures lo <= Mean(xs) <= hi
  {
    var n := |xs| as real;
    SumBetween(xs, lo, hi);
    assert Mean(xs) - lo == (Sum(xs) - n * lo) / n;
    assert hi - Mean(xs) == (n * hi - Sum(xs)) / n;
  }

  lemma RingMean(cs: seq<Clog>, f: Field, pts: seq<(real, real)>)
    requires DensitiesOk(cs) && pts != []
    ensures Base(f) <= Mean(Samples(Reader(cs, f), pts)) <= Base(f) + Scale(f)
    ensures (forall j :: 0 <= j < |cs| ==> cs[j].cleared) ==> Mean(Samples(Reader(cs, f), pts)) == Base(f)
  {
    var r := Samples(Reader(cs, f), pts);
    SamplesBounds(cs, f, pts);
    MeanBetween(r, Base(f), Base(f) + Scale(f));
    if forall j :: 0 <= j < |cs| ==> cs[j].cleared {
      assert forall k :: 0 <= k < |r| ==> r[k] == Base(f);
      MeanBetween(r, Base(f), Base(f));
    }
  }

  /** The averaged readings lie between each field's base and base plus
      scale, so every normalised signal lies in [0,1]; once every clog is
      cleared the readings are exactly the bases and nothing is detected. */
  lemma SampledFacts(cs: seq<Clog>, x: real, y: real, g: Rings)
    requires DensitiesOk(cs) && RingsOk(g)
    ensures var d := Sampled(cs, x, y, g);
      && NormalViscosity <= d.viscosity <= NormalViscosity + 45.0
      && BaseReflectance <= d.reflectance <= BaseReflectance + 0.85
      && BaseResistance <= d.resistance <= BaseResistance + 95.0
    ensures var s := Normalised(Sampled(cs, x, y, g));
      0.0 <= s.visc <= 1.0 && 0.0 <= s.refl <= 1.0 && 0.0 <= s.res <= 1.0
    ensures (forall j :: 0 <= j < |cs| ==> cs[j].cleared) ==>
      Sampled(cs, x, y, g) == SensorData(NormalViscosity, BaseReflectance, BaseResistance)
      && !Fuse(Sampled(cs, x, y, g)).detected
  {
    RingMean(cs, Viscosity, SensorPositions(x, y, g.visc));
    RingMean(cs, Reflectance, SensorPositions(x, y, g.refl));
    RingMean(cs, Resistance, SensorPositions(x, y, g.res));
  }

  // ---------------------------------------------------------------------------
  // The nanobot

  datatype Mode = Searching | Approaching | Clearing | Continuing

  /** Snapshot of a nanobot. */
  datatype BotState = BotState(
    x: real,
    y: real,
    velocity: real,
    acceleration: real,
    mode: Mode,
    clogDetected: bool,
    clogDistance: Option<real>,
    detectionSignal: real,
    clearingProgress: real,
    isClearing: bool,
    clearingTime: nat,
    sensors: SensorData)

  function InitialBot(x0: real, y0: real): BotState {
    BotState(x0, y0, 0.0, 0.0, Searching, false, None, 0.0, 0.0, false, 0, SensorData(4.5, 0.08, 1.0))
  }

  /** The nanobot invariant: the speed is within the limit, the clearing
      progress is `clearing_time / 200` with at most 200 frames counted, the
      bot is clearing exactly in the CLEARING state, and a clearing bot has
      not yet reached 200 frames. */
  predicate BotOk(s: BotState) {
    && Abs(s.velocity) <= MaxVelocity
    && s.clearingTime <= ClearingTimeNeeded
    && s.clearingProgress == s.clearingTime as real / ClearingTimeNeeded as real
    && (s.isClearing <==> s.mode == Clearing)
    && (s.mode == Clearing ==> s.clearingTime < ClearingTimeNeeded)
  }

  lemma InitialBotOk(x0: real, y0: real)
    ensures BotOk(InitialBot(x0, y0))
    ensures InitialBot(x0, y0).mode == Searching && InitialBot(x0, y0).clearingProgress == 0.0
  {
  }

  function Sensed(s: BotState, d: SensorData): BotState {
    var f := Fuse(d);
    s.(sensors := d, clogDetected := f.detected, detectionSignal := f.signal, clogDistance := f.distance)
  }

  /** The velocity the step starts from and the acceleration chosen by
      `update_movement` in each state. */
  function Thrust(s: BotState, targetX: real): (real, real) {
    match s.mode
    case Searching =>
      (s.velocity, if targetX - s.x > 0.0 && s.velocity < MaxVelocity then MaxAcceleration else 0.0)
    case Approaching =>
      (s.velocity,
       if s.velocity > 1.0 then -MaxAcceleration * 0.8
       else if s.velocity < 1.0 then MaxAcceleration * 0.5
       else 0.0)
    case Clearing =>
      if Abs(s.velocity) < 0.05 then (0.0, 0.0) else (s.velocity, -s.velocity * 0.3)
    case Continuing =>
      (s.velocity, if s.velocity < MaxVelocity then MaxAcceleration else 0.0)
  }

  /** `update_movement`: `v += a`, clamp to ±3.5, `x += v`. */
  function Moved(s: BotState, targetX: real): BotState {
    var t := Thrust(s, targetX);
    var v := Clamp(t.0 + t.1, -MaxVelocity, MaxVelocity);
    s.(velocity := v, acceleration := t.1, x := s.x + v)
  }

  /** After a movement step the speed is within the limit and the bot has
      moved by exactly the new velocity, nothing else changing.  Starting
      within the limit, SEARCHING and CONTINUING only speed up, by at most
      0.15 and up to 3.5 (SEARCHING only toward a target ahead); APPROACHING
      brakes by 0.12 above 1 and speeds up by 0.075 below it; CLEARING keeps
      70% of the velocity, or stops below 0.05, so the speed never grows. */
  lemma MovementFacts(s: BotState, targetX: real)
    requires Abs(s.velocity) <= MaxVelocity
    ensures var r, v := Moved(s, targetX), s.velocity;
      && Abs(r.velocity) <= MaxVelocity
      && r.x == s.x + r.velocity
      && r == s.(x := r.x, velocity := r.velocity, acceleration := r.acceleration)
      && (s.mode == Searching && targetX > s.x ==> r.velocity == Min(v + MaxAcceleration, MaxVelocity))
      && (s.mode == Searching && targetX <= s.x ==> r.velocity == v && r.acceleration == 0.0)
      && (s.mode == Continuing ==> r.velocity == Min(v + MaxAcceleration, MaxVelocity))
      && (s.mode == Approaching && v > 1.0 ==> r.velocity == v - 0.12)
      && (s.mode == Approaching && v < 1.0 ==> r.velocity == v + 0.075)
      && (s.mode == Approaching && v == 1.0 ==> r.velocity == 1.0)
      && (s.mode == Clearing && Abs(v) < 0.05 ==> r.velocity == 0.0 && r.acceleration == 0.0 && r.x == s.x)
      && (s.mode == Clearing && Abs(v) >= 0.05 ==> r.velocity == 0.7 * v && r.acceleration == -0.3 * v)
      && (s.mode == Clearing ==> Abs(r.velocity) <= Abs(v))
  {
  }

  /** The detection transition of `update_state`. */
  function Noticed(s: BotState): BotState {
    if s.clogDetected && s.detectionSignal > 0.4 then
      var m := if s.mode == Searching then Approaching else s.mode;
      if s.detectionSignal > 0.6 && m == Approaching then s.(mode := Clearing, isClearing := true, clearingTime := 0)
      else s.(mode := m)
    else s
  }

  /** `clearing_progress = min(1, clearing_time / clearing_time_needed)`. */
  function Progress(t: nat): (p: real)
    ensures 0.0 <= p <= 1.0
    ensures p >= 1.0 <==> t >= ClearingTimeNeeded
    ensures t <= ClearingTimeNeeded ==> p == t as real / ClearingTimeNeeded as real
  {
    Min(1.0, t as real / ClearingTimeNeeded as real)
  }

  /** The clearing clock of `update_state`. */
  function ClearingAdvanced(s: BotState): BotState {
    if s.mode == Clearing && s.isClearing then
      var t := s.clearingTime + 1;
      var p := Progress(t);
      if p >= 1.0 then s.(clearingTime := t, clearingProgress := p, isClearing := false, clogDetected := false, mode := Continuing)
      else s.(clearingTime := t, clearingProgress := p)
    else s
  }

  /** The resumption transition of `update_state`. */
  function Resumed(s: BotState): BotState {
    if s.mode == Continuing && s.velocity >= MaxVelocity * 0.8 then s.(mode := Searching) else s
  }

  /** `update_state`: the three guarded transitions, in the script's order. */
  function Stepped(s: BotState): BotState {
    Resumed(ClearingAdvanced(Noticed(s)))
  }

  /** The state machine keeps the nanobot invariant, so the clearing progress
      stays in [0,1], and touches only the state, the clearing fields and the
      detection flag. */
  lemma SteppedOk(s: BotState)
    requires BotOk(s)
    ensures BotOk(Stepped(s)) && 0.0 <= Stepped(s).clearingProgress <= 1.0
    ensures var r := Stepped(s);
      r == s.(mode := r.mode, isClearing := r.isClearing, clearingTime := r.clearingTime,
              clearingProgress := r.clearingProgress, clogDetected := r.clogDetected)
  {
  }

  /** The transitions: SEARCHING is left only on a detected signal above 0.4,
      CLEARING is entered (from SEARCHING or APPROACHING, in the same call)
      exactly on a detected signal above 0.6, and starts a clearing clock; a
      clearing bot counts one more frame per call and stops clearing at 200
      frames with its detection dropped; CONTINUING returns to SEARCHING
      exactly once the velocity reaches 2.8. */
  lemma Transitions(s: BotState)
    requires BotOk(s)
    ensures var r := Stepped(s);
      && (s.mode == Searching && r.mode != Searching ==> s.clogDetected && s.detectionSignal > 0.4)
      && (s.mode != Clearing && r.mode == Clearing <==>
            (s.mode == Searching || s.mode == Approaching) && s.clogDetected && s.detectionSignal > 0.6)
      && (s.mode != Clearing && r.mode == Clearing ==> r.clearingTime == 1 && r.isClearing)
      && (s.mode == Approaching && r.mode != Approaching ==> r.mode == Clearing)
      && (s.mode == Clearing ==> r.clearingTime == s.clearingTime + 1)
      && (s.mode == Clearing ==> (r.mode == Clearing <==> s.clearingTime + 1 < ClearingTimeNeeded))
      && (s.mode == Clearing && r.mode != Clearing ==>
            !r.isClearing && !r.clogDetected && r.clearingProgress == 1.0
            && (r.mode == Continuing || r.mode == Searching))
      && (s.mode == Continuing ==> (r.mode == Searching <==> s.velocity >= MaxVelocity * 0.8))
      && (s.mode == Continuing && r.mode != Searching ==> r.mode == Continuing)
  {
  }

  /** A clearing bot has not finished: on the call that completes the clearing
      `update_state` drops `is_clearing`, so a clearing bot never has progress 1. */
  lemma ClearingIncomplete(s: BotState)
    requires BotOk(s) && s.isClearing
    ensures s.clearingProgress < 1.0
  {
  }

  class RealisticNanobot {
    var x: real
    var y: real
    var velocity: real
    var acceleration: real
    var state: Mode
    var clogDetected: bool
    var clogDistance: Option<real>
    var detectionSignal: real
    var clearingProgress: real
    var isClearing: bool
    var clearingTime: nat
    var sensorData: SensorData

    function View(): BotState
      reads this
    {
      BotState(x, y, velocity, acceleration, state, clogDetected, clogDistance, detectionSignal,
               clearingProgress, isClearing, clearingTime, sensorData)
    }

    constructor (x0: real, y0: real)
      ensures View() == InitialBot(x0, y0)
    {
      x, y := x0, y0;
      velocity, acceleration := 0.0, 0.0;
      state := Searching;
      clogDetected, clogDistance, detectionSignal := false, None, 0.0;
      clearingProgress, isClearing, clearingTime := 0.0, false, 0;
      sensorData := SensorData(4.5, 0.08, 1.0);
    }

    /** The fusion half of `update_sensors`, from the three averaged readings. */
    method UpdateSensors(d: SensorData)
      modifies this
      ensures View() == Sensed(old(View()), d)
    {
      sensorData := d;
      var detection := Fuse(d);
      clogDetected := detection.detected;
      detectionSignal := detection.signal;
      clogDistance := detection.distance;
    }

    /** One sensor ring of `update_sensors`: read the field at each sensor and average. */
    method SampleRing(vein: VeinEnvironment, f: Field, offsets: seq<(real, real)>) returns (avg: real)
      requires offsets != []
      ensures avg == Mean(Samples(Reader(vein.clogs, f), SensorPositions(x, y, offsets)))
    {
      var cs, px, py := vein.clogs, x, y;
      ghost var read := Reader(cs, f);
      ghost var pts := SensorPositions(px, py, offsets);
      var samples: seq<real> := [];
      var k := 0;
      while k < |offsets|
        invariant k <= |offsets|
        invariant samples == Samples(read, pts[..k])
      {
        var sensor := (px + offsets[k].0, py + offsets[k].1);
        var sample := FieldAt(cs, f, sensor.0, sensor.1);
        assert sample == read(sensor);
        RingStep(read, px, py, offsets, k, samples, sample);
        samples := samples + [sample];
        k := k + 1;
      }
      assert pts[..k] == pts;
      avg := Sum(samples) / |samples| as real;
    }

    /** `update_sensors`: sample the three rings, then fuse their averages. */
    method SenseVein(vein: VeinEnvironment, g: Rings)
      requires RingsOk(g)
      modifies this
      ensures View() == Sensed(old(View()), Sampled(vein.clogs, old(x), old(y), g))
    {
      var avgViscosity := SampleRing(vein, Viscosity, g.visc);
      var avgReflectance := SampleRing(vein, Reflectance, g.refl);
      var avgResistance := SampleRing(vein, Resistance, g.res);
      UpdateSensors(SensorData(avgViscosity, avgReflectance, avgResistance));
    }

    method UpdateMovement(targetX: real)
      modifies this
      ensures View() == Moved(old(View()), targetX)
    {
      var dx := targetX - x;
      match state {
        case Searching =>
          if dx > 0.0 && velocity < MaxVelocity {
            acceleration := MaxAcceleration;
          } else {
            acceleration := 0.0;
          }
        case Approaching =>
          var desiredVel := 1.0;
          if velocity > desiredVel {
            acceleration := -MaxAcceleration * 0.8;
          } else if velocity < desiredVel {
            acceleration := MaxAcceleration * 0.5;
          } else {
            acceleration := 0.0;
          }
        case Clearing =>
          acceleration := -velocity * 0.3;
          if Abs(velocity) < 0.05 {
            velocity := 0.0;
            acceleration := 0.0;
          }
        case Continuing =>
          if velocity < MaxVelocity {
            acceleration := MaxAcceleration;
          } else {
            acceleration := 0.0;
          }
      }
      velocity := velocity + acceleration;
      velocity := Clamp(velocity, -MaxVelocity, MaxVelocity);
      x := x + velocity;
    }

    method UpdateState()
      modifies this
      ensures View() == Stepped(old(View()))
    {
      NoticeClog();
      AdvanceClearing();
      Resume();
    }

    /** The first block of `update_state`: react to a detected clog. */
    method NoticeClog()
      modifies this
      ensures View() == Noticed(old(View()))
    {
      if clogDetected && detectionSignal > 0.4 {
        if state == Searching {
          state := Approaching;
        }
        if detectionSignal > 0.6 && state == Approaching {
          state := Clearing;
          isClearing := true;
          clearingTime := 0;
        }
      }
    }

    /** The second block of `update_state`: count a clearing frame. */
    method AdvanceClearing()
      modifies this
      ensures View() == ClearingAdvanced(old(View()))
    {
      if state == Clearing && isClearing {
        clearingTime := clearingTime + 1;
        clearingProgress := Progress(clearingTime);
        if clearingProgress >= 1.0 {
          isClearing := false;
          clogDetected := false;
          state := Continuing;
        }
      }
    }

    /** The last block of `update_state`: resume searching at speed. */
    method Resume()
      modifies this
      ensures View() == Resumed(old(View()))
    {
      if state == Continuing && velocity >= MaxVelocity * 0.8 {
        state := Searching;
      }
    }
  }

  // ---------------------------------------------------------------------------
  // Clog density update (the main loop, after update_state)

  predicate Near(c: Clog, x: real) {
    !c.cleared && Abs(x - c.centerX) < 150.0
  }

  /** The clog being cleared: the current clog ahead, else the first uncleared
      clog within 150. */
  function Tracked(cs: seq<Clog>, x: real): Option<nat> {
    match GetCurrentClog(cs, x)
    case Some(i) => Some(i)
    case None => FirstFrom(cs, c => Near(c, x), 0)
  }

  /** The update of the tracked clog: density `max(0, 1 - clearing_progress)`,
      and zero density and cleared at full progress. */
  function ClearTracked(cs: seq<Clog>, s: BotState): seq<Clog> {
    match Tracked(cs, s.x)
    case None => cs
    case Some(i) =>
      if i >= |cs| then cs
      else if s.clearingProgress >= 1.0 then cs[i := cs[i].(density := 0.0, cleared := true)]
      else cs[i := cs[i].(density := Max(0.0, 1.0 - s.clearingProgress))]
  }

  /** The density update as written: it runs only while `is_clearing` holds
      after `update_state`. */
  function DensityUpdated(cs: seq<Clog>, s: BotState): seq<Clog> {
    if !s.isClearing then cs else ClearTracked(cs, s)
  }

  /** The density update as evidently intended: it also runs on the frame
      whose `update_state` completed the clearing, that is, when the bot was
      clearing as the frame's state update began. */
  function DensityUpdatedIntended(cs: seq<Clog>, wasClearing: bool, s: BotState): seq<Clog> {
    if !s.isClearing && !wasClearing then cs else ClearTracked(cs, s)
  }

  /** Same clogs, at the same places, none newly cleared. */
  predicate SameClogs(a: seq<Clog>, b: seq<Clog>) {
    |a| == |b| && forall j :: 0 <= j < |a| ==> b[j].centerX == a[j].centerX && b[j].cleared == a[j].cleared
  }

  /** For a bot satisfying its invariant the density update sets the tracked
      clog's density to `1 - clearing_progress` and never reaches the branch
      that marks a clog cleared: no clog ever becomes cleared. */
  lemma DensityUpdateFacts(cs: seq<Clog>, s: BotState)
    requires BotOk(s)
    ensures var r := DensityUpdated(cs, s);
      && SameClogs(cs, r)
      && (DensitiesOk(cs) ==> DensitiesOk(r))
      && (!s.isClearing || Tracked(cs, s.x).None? ==> r == cs)
      && (s.isClearing && Tracked(cs, s.x).Some? ==>
            var i := Tracked(cs, s.x).value;
            i < |cs| && r == cs[i := cs[i].(density := 1.0 - s.clearingProgress)])
  {
    var t := Tracked(cs, s.x);
    if s.isClearing && t.Some? {
      TrackedInRange(cs, s.x);
      ClearingIncomplete(s);
    }
  }

  lemma TrackedInRange(cs: seq<Clog>, x: real)
    ensures Tracked(cs, x).Some? ==> Tracked(cs, x).value < |cs|
  {
    if GetCurrentClog(cs, x).None? {
      assert FirstFrom(cs, c => Near(c, x), 0) == Tracked(cs, x);
    }
  }

  /** The frame on which the clearing clock reaches 200 frames: the bot is
      clearing with 199 frames counted. */
  predicate Completing(s: BotState) {
    s.mode == Clearing && s.isClearing && s.clearingTime + 1 == ClearingTimeNeeded
  }

  /** As written, the density update never sees the completing frame:
      `update_state` has already dropped `is_clearing`, so the clog the bot
      cleared keeps the density `1 - 199/200` and is never marked cleared. */
  lemma CompletionMissed(cs: seq<Clog>, s: BotState)
    requires BotOk(s) && Completing(s)
    ensures Stepped(s).clearingProgress == 1.0 && !Stepped(s).isClearing
    ensures DensityUpdated(cs, Stepped(s)) == cs
  {
  }

  /** The intended update marks the tracked clog cleared, with zero density,
      on the frame where the clearing time reaches 200; on every other frame it
      agrees with the update as written. */
  lemma CompletionMarksCleared(cs: seq<Clog>, s: BotState)
    requires BotOk(s)
    ensures Completing(s) && Tracked(cs, s.x).Some? ==>
      var i := Tracked(cs, s.x).value;
      i < |cs| && DensityUpdatedIntended(cs, s.isClearing, Stepped(s)) == cs[i := cs[i].(density := 0.0, cleared := true)]
    ensures !Completing(s) ==> DensityUpdatedIntended(cs, s.isClearing, Stepped(s)) == DensityUpdated(cs, Stepped(s))
  {
    TrackedInRange(cs, s.x);
    SteppedOk(s);
  }

  /** The main loop's search for the tracked clog, with the fallback loop
      over the clogs. */
  method FindTrackedClog(vein: VeinEnvironment, x: real) returns (current: Option<nat>)
    ensures current == Tracked(vein.clogs, x)
  {
    current := GetCurrentClog(vein.clogs, x);
    if current.None? {
      var cs := vein.clogs;
      var i := 0;
      while i < |cs| && !Near(cs[i], x)
        invariant i <= |cs|
        invariant FirstFrom(cs, c => Near(c, x), i) == FirstFrom(cs, c => Near(c, x), 0)
      {
        i := i + 1;
      }
      if i < |cs| {
        current := Some(i);
      }
    }
  }

  method UpdateClogDensity(bot: RealisticNanobot, vein: VeinEnvironment)
    modifies vein
    ensures vein.clogs == DensityUpdated(old(vein.clogs), bot.View())
  {
    if bot.isClearing {
      var current := FindTrackedClog(vein, bot.x);
      if current.Some? {
        var i := current.value;
        TrackedInRange(vein.clogs, bot.x);
        vein.clogs := vein.clogs[i := vein.clogs[i].(density := Max(0.0, 1.0 - bot.clearingProgress))];
        if bot.clearingProgress >= 1.0 {
          vein.clogs := vein.clogs[i := vein.clogs[i].(density := 0.0, cleared := true)];
        }
      }
    }
  }

  // ---------------------------------------------------------------------------
  // One frame and the whole run

  datatype World = World(bot: BotState, clogs: seq<Clog>)

  function InitialWorld(): World {
    World(InitialBot(50.0, 325.0), InitialClogs())
  }

  predicate Inv(w: World) {
    BotOk(w.bot) && DensitiesOk(w.clogs)
  }

  /** The target of a frame: 100 past the current clog, else 850. */
  function TargetX(cs: seq<Clog>, x: real): real {
    match GetCurrentClog(cs, x)
    case Some(i) => cs[i].centerX + 100.0
    case None => FinalTargetX
  }

  /** One frame of the main loop without the drawing, from the frame's
      averaged readings. */
  function FrameStep(w: World, d: SensorData): World {
    var s1 := Sensed(w.bot, d);
    var s2 := Moved(s1, TargetX(w.clogs, s1.x));
    var s3 := Stepped(s2);
    World(s3, DensityUpdated(w.clogs, s3))
  }

  /** The script's sensing: the frame's readings are the sensor rings sampled
      around the bot in the vein at the frame's start. */
  function Sensing(g: Rings): World -> SensorData
    requires RingsOk(g)
  {
    (w: World) => Sampled(w.clogs, w.bot.x, w.bot.y, g)
  }

  /** A frame keeps both invariants and the clogs, none of which is cleared,
      whatever the readings. */
  lemma FrameStepOk(w: World, d: SensorData)
    requires Inv(w)
    ensures Inv(FrameStep(w, d)) && SameClogs(w.clogs, FrameStep(w, d).clogs)
  {
    var s1 := Sensed(w.bot, d);
    var s2 := Moved(s1, TargetX(w.clogs, s1.x));
    MovementFacts(s1, TargetX(w.clogs, s1.x));
    assert BotOk(s2);
    SteppedOk(s2);
    DensityUpdateFacts(w.clogs, Stepped(s2));
  }

  /** `n` frames of the main loop, each frame's readings taken by `sense` from
      the world at the frame's start. */
  function Run(w: World, sense: World -> SensorData, n: nat): World
    decreases n
  {
    if n == 0 then w else Run(FrameStep(w, sense(w)), sense, n - 1)
  }

  /** Over any number of frames the invariants hold and no clog becomes
      cleared: each clog's density only follows the clearing progress. */
  lemma {:induction false} RunOk(w: World, sense: World -> SensorData, n: nat)
    requires Inv(w)
    ensures Inv(Run(w, sense, n)) && SameClogs(w.clogs, Run(w, sense, n).clogs)
    decreases n
  {
    if n > 0 {
      var next := FrameStep(w, sense(w));
      FrameStepOk(w, sense(w));
      RunOk(next, sense, n - 1);
    }
  }

  /** The first of `n` frames leads to the world the other `n - 1` start from. */
  lemma RunUnfold(w: World, sense: World -> SensorData, n: nat, next: World)
    requires n > 0 && next == FrameStep(w, sense(w))
    ensures Run(w, sense, n) == Run(next, sense, n - 1)
  {
  }

  method SimulateFrame(bot: RealisticNanobot, vein: VeinEnvironment, g: Rings)
    requires RingsOk(g)
    modifies bot, vein
    ensures World(bot.View(), vein.clogs) == FrameStep(old(World(bot.View(), vein.clogs)), Sensing(g)(old(World(bot.View(), vein.clogs))))
  {
    ghost var w := World(bot.View(), vein.clogs);
    bot.SenseVein(vein, g);
    ghost var s1 := bot.View();
    assert s1 == Sensed(w.bot, Sensing(g)(w)) && vein.clogs == w.clogs;
    var clogIdx := GetCurrentClog(vein.clogs, bot.x);
    var targetX := if clogIdx.Some? then vein.clogs[clogIdx.value].centerX + 100.0 else FinalTargetX;
    assert targetX == TargetX(w.clogs, s1.x);
    bot.UpdateMovement(targetX);
    ghost var s2 := bot.View();
    assert s2 == Moved(s1, targetX) && vein.clogs == w.clogs;
    bot.UpdateState();
    assert bot.View() == Stepped(s2) && vein.clogs == w.clogs;
    UpdateClogDensity(bot, vein);
  }

  /** One pass of the frame loop: of the `k` frames that lead to `target`,
      `k - 1` are left. */
  method FrameLoopStep(bot: RealisticNanobot, vein: VeinEnvironment, g: Rings, ghost k: nat, ghost target: World)
    requires RingsOk(g) && k > 0 && Run(World(bot.View(), vein.clogs), Sensing(g), k) == target
    modifies bot, vein
    ensures Run(World(bot.View(), vein.clogs), Sensing(g), k - 1) == target
  {
    ghost var before := World(bot.View(), vein.clogs);
    SimulateFrame(bot, vein, g);
    RunUnfold(before, Sensing(g), k, World(bot.View(), vein.clogs));
  }

  /** The frame loop `for frame_idx in range(n)`. */
  method RunFrames(bot: RealisticNanobot, vein: VeinEnvironment, g: Rings, n: nat)
    requires RingsOk(g)
    modifies bot, vein
    ensures World(bot.View(), vein.clogs) == Run(old(World(bot.View(), vein.clogs)), Sensing(g), n)
  {
    ghost var sense := Sensing(g);
    ghost var target := Run(World(bot.View(), vein.clogs), sense, n);
    ghost var left := n;
    var frameIdx := 0;
    while frameIdx < n
      invariant frameIdx <= n && left == n - frameIdx
      invariant Run(World(bot.View(), vein.clogs), sense, left) == target
    {
      FrameLoopStep(bot, vein, g, left, target);
      frameIdx, left := frameIdx + 1, left - 1;
    }
  }

  /** `create_realistic_simulation` without the drawing: 900 frames from the
      start position. Every clog is still uncleared at the end. */
  method CreateRealisticSimulation(g: Rings) returns (bot: RealisticNanobot, vein: VeinEnvironment)
    requires RingsOk(g)
    ensures World(bot.View(), vein.clogs) == Run(InitialWorld(), Sensing(g), NumFrames)
    ensures Inv(World(bot.View(), vein.clogs))
    ensures |vein.clogs| == 3 && forall j :: 0 <= j < 3 ==> !vein.clogs[j].cleared
  {
    vein := new VeinEnvironment(900.0, 650.0);
    bot := new RealisticNanobot(50.0, 325.0);
    RunFrames(bot, vein, g, NumFrames);
    InitialBotOk(50.0, 325.0);
    RunOk(InitialWorld(), Sensing(g), NumFrames);
  }
}
