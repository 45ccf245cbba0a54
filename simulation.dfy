/** The discrete part of the 3D simulation (src/SimulationMode.js): the
    boat-then-car run sequence, the car's contact with the ground, its
    drive along the bridge and the fall under gravity.

    What the scene's ray casts and orientation math compute is an input:
    `Ground` is what the downward rays report, and a `Sensing` value holds
    that, whether a wall lies ahead of the car, and the world-space move
    the car's orientation turns one step into.  The outcome of each
    asynchronous model load is an input as well.

    The mode's fields are grouped by what they describe: the loaded
    scene, the car, the car's vertical motion, the boat and the run
    flags.  Each operation's effect is a function on `Sim`, the value of
    those groups; the methods of `SimulationMode` are proved to change the
    fields exactly as those functions say, and to keep the sequencing
    invariant `Sequenced`. */
module Simulation {
  import opened Utils
  import opened Bridge
  import opened Placement

  const Gravity: real := 9.8 * 0.8
  const InitialCarZPadding: real := -1.95
  /** The longest time step `update` integrates at once. */
  const MaxStep: real := 0.1
  /** How close to its target the boat or the car counts as arrived. */
  const ArrivalSlack: real := 0.001
  const BounceFactor: real := 0.3
  const MinBounceVelocity: real := 0.05
  /** Below this speed a bounce ends the fall. */
  const RestVelocity: real := 0.01
  /** Below this speed no obstacle check is made. */
  const ObstacleMinSpeed: real := 0.01
  const MinWorldY: real := -20.0
  /** The boat sails this far towards -x. */
  const BoatTravel: real := 3.0
  const BoatOffsetX: real := 1.3
  const FrameSeconds: real := 1.0 / 60.0
  const InitialCarSpeed: real := 3.0
  const InitialBoatSpeed: real := 2.0

  /** What the downward rays under the car report: no geometry to test
      against, no hit (with the height of the car's bottom), or a hit (with
      the highest hit's height and the height that puts the car's bottom on
      it given its orientation). */
  datatype Ground = NoGeometry | Miss(bottomY: real) | Hit(groundY: real, restY: real)

  /** The per-frame inputs `update` takes from the scene: the ground under
      the car, whether a steep face lies ahead within the obstacle rays'
      reach, the world-space move of one step (the step along the car's
      heading, projected onto the ground when on ground), and the ground
      the car would find if it had to be reset. */
  datatype Sensing = Sensing(ground: Ground, wallAhead: bool, move: Vec3, resetGround: Ground)

  /** The measured size of a loaded car model: depth, height and the
      bottom's offset below the pivot. */
  datatype CarSize = CarSize(depth: real, height: real, bottomOffset: real)

  /** The box car used when the car model fails to load. */
  const FallbackCar: CarSize := CarSize(0.5, 0.2, -0.1)

  datatype ZBounds = ZBounds(zMin: real, zMax: real)

  /** The loaded map (its centre and top, from its bounding box) and the
      bridge laid out on it (`calculatedBridgeExtents`). */
  datatype Scene = Scene(hasMap: bool, mapFrame: Frame, hasBridgeMeshes: bool,
                         extents: Extents, referenceY: real, baseY: real)

  /** The car object and the values `addCar` derives from its size. */
  datatype Car = Car(present: bool, position: Vec3, speed: real, zMin: real, zMax: real,
                     initialX: real, bottomOffset: real, tumbleThreshold: real)

  /** The car's vertical motion and its contact with the ground. */
  datatype Motion = Motion(isFalling: bool, verticalVelocity: real, isTumbling: bool,
                           onValidGround: bool, lastGroundY: real)

  /** The boat object: its x position, speed, start and target. */
  datatype Boat = Boat(present: bool, x: real, speed: real, initialX: real, targetX: real)

  /** The run sequence's flags. */
  datatype Runs = Runs(isCarRunning: bool, hasCarCompletedRun: bool,
                       isBoatMoving: bool, hasBoatCompletedRun: bool)

  datatype Sim = Sim(isActive: bool, scene: Scene, car: Car, motion: Motion, boat: Boat, runs: Runs)

  const NoRuns: Runs := Runs(false, false, false, false)

  /** The fields as the constructor leaves them. */
  function Initial(): Sim {
    Sim(false,
        Scene(false, Frame(0.0, 0.0, 0.0), false, Extents(0.0, 0.0, 0.0, 0.0), 0.0, 0.0),
        Car(false, Vec3(0.0, 0.0, 0.0), InitialCarSpeed, 0.0, 0.0, 0.0, -0.1, 0.2 * 0.3),
        Motion(false, 0.0, false, false, 0.0),
        Boat(false, 0.0, InitialBoatSpeed, 0.0, 0.0),
        NoRuns)
  }

  /** The invariant of the run sequence: the boat and the car never move at
      the same time, a completed run is not running, a running car exists,
      and while the boat sails neither run has completed; a car, once there,
      has a non-empty z range. */
  ghost predicate Sequenced(s: Sim) {
    var r := s.runs;
    !(r.isBoatMoving && r.isCarRunning) &&
    !(r.hasCarCompletedRun && r.isCarRunning) &&
    (r.isCarRunning ==> s.car.present) &&
    (r.isBoatMoving ==> !r.hasBoatCompletedRun && !r.hasCarCompletedRun) &&
    (s.car.present ==> s.car.zMin < s.car.zMax)
  }

  predicate AnyRun(r: Runs) {
    r.isCarRunning || r.isBoatMoving || r.hasCarCompletedRun || r.hasBoatCompletedRun
  }

  function Sign(r: real): real {
    if r > 0.0 then 1.0 else if r < 0.0 then -1.0 else 0.0
  }

  function Plus(a: Vec3, b: Vec3): Vec3 {
    Vec3(a.x + b.x, a.y + b.y, a.z + b.z)
  }

  /** The time step `update` integrates: the frame time, capped. */
  function StepTime(dt: real): (d: real)
    requires dt > 0.0
    ensures 0.0 < d <= MaxStep && d <= dt
    ensures dt <= MaxStep ==> d == dt
    ensures dt > MaxStep ==> d == MaxStep
  {
    if dt > MaxStep then MaxStep else dt
  }

  // ----- loading outcomes -----

  /** The map load: a loaded map with a non-empty box sets the centre and
      top from it; otherwise they are reset to 0.  The bridge is then laid
      out. */
  function MapLoaded(s: Sim, snap: SimData, loaded: bool, box: Option<Frame>): Sim {
    var f := if loaded && box.Some? then box.value else Frame(0.0, 0.0, 0.0);
    BuildBridge(s.(scene := s.scene.(hasMap := s.scene.hasMap || loaded, mapFrame := f)), snap)
  }

  /** `buildBridge3D` on the snapshot, without anchor points (the snapshot
      carries none): with no joints only the old meshes go. */
  function BuildBridge(s: Sim, snap: SimData): Sim {
    match Bridge3D(snap.joints, snap.elements, [], WidthPlanes, s.scene.mapFrame)
    case None => s.(scene := s.scene.(hasBridgeMeshes := false))
    case Some(l) =>
      s.(scene := s.scene.(hasBridgeMeshes := true, extents := l.extents, baseY := l.baseY,
                           referenceY := l.referenceY))
  }

  /** The car's z range in `addCar`: the bridge's z extent less half a car
      and the padding at each end, widened when empty. */
  function CarZBounds(ext: Extents, depth: real): (b: ZBounds)
    ensures b.zMin < b.zMax
    ensures b.zMin == ext.minZ + depth / 2.0 + InitialCarZPadding
    ensures var padded := ext.maxZ - depth / 2.0 - InitialCarZPadding;
      (b.zMin < padded ==> b.zMax == padded) && (b.zMin >= padded ==> b.zMax - b.zMin == Max(depth, 0.1))
  {
    var lo := ext.minZ + depth / 2.0 + InitialCarZPadding;
    var hi := ext.maxZ - depth / 2.0 - InitialCarZPadding;
    if lo >= hi then ZBounds(lo, lo + Max(depth, 0.1)) else ZBounds(lo, hi)
  }

  /** The car load (or its fallback box car): the car starts centred between
      the bridge's sides, and its z range is fixed. */
  function CarLoaded(s: Sim, measured: Option<CarSize>): Sim {
    var size := if measured.Some? then measured.value else FallbackCar;
    var ext := s.scene.extents;
    var b := CarZBounds(ext, size.depth);
    s.(car := s.car.(present := true, bottomOffset := size.bottomOffset,
                     tumbleThreshold := size.height * 0.3, initialX := (ext.minX + ext.maxX) / 2.0,
                     zMin := b.zMin, zMax := b.zMax))
  }

  /** Where a loaded boat is put: off the map's centre, heading `BoatTravel`
      further towards -x. */
  function PlacedBoat(b: Boat, sc: Scene): Boat {
    var x := (if sc.hasMap then sc.mapFrame.centerX else 0.0) + BoatOffsetX;
    b.(present := true, x := x, initialX := x, targetX := x - BoatTravel)
  }

  /** The boat load: a loaded boat is placed; either way the sequence is
      reset. */
  function BoatLoaded(s: Sim, snap: SimData, loaded: bool, g: Ground): Sim {
    Reset(if loaded then s.(boat := PlacedBoat(s.boat, s.scene)) else s, snap, g)
  }

  // ----- ground contact -----

  /** The contact branch of `updateCarVerticalPosition`: the car rests on
      the highest hit; a falling car bounces back up at 0.3 of its speed
      while it is fast enough, and otherwise stops; tumbling ends. */
  function Contact(s: Sim, groundY: real, restY: real): Sim {
    var m := s.motion.(onValidGround := true, lastGroundY := groundY);
    var at := s.car.(position := s.car.position.(y := restY));
    if !s.motion.isFalling then s.(car := at, motion := m.(verticalVelocity := 0.0))
    else if Abs(s.motion.verticalVelocity) > MinBounceVelocity then
      var v := s.motion.verticalVelocity * -BounceFactor;
      s.(car := at.(position := at.position.(y := restY + Max(0.0, v * FrameSeconds))),
         motion := m.(verticalVelocity := v, isFalling := Abs(v) > RestVelocity, isTumbling := false))
    else s.(car := at, motion := m.(verticalVelocity := 0.0, isFalling := false, isTumbling := false))
  }

  /** No hit: the car falls, and starts to tumble when it leaves the ground
      from rest by more than the threshold. */
  function Airborne(s: Sim, bottomY: real): Sim {
    var m := s.motion;
    s.(motion := m.(onValidGround := false,
                    isTumbling := m.isTumbling || (!m.isFalling && m.lastGroundY - bottomY > s.car.tumbleThreshold),
                    isFalling := true))
  }

  /** `updateCarVerticalPosition(false)`. */
  function VerticalStep(s: Sim, g: Ground): Sim {
    match g
    case NoGeometry => s.(motion := s.motion.(onValidGround := false, isFalling := true))
    case Miss(bottomY) => Airborne(s, bottomY)
    case Hit(groundY, restY) => Contact(s, groundY, restY)
  }

  /** The height a car is put at when nothing is hit during a reset: just
      above the first joint's height when the bridge was laid out on a
      non-zero base, else above the base or the map's top. */
  function DefaultY(s: Sim, snap: SimData): real {
    var pivot := -s.car.bottomOffset;
    var sc := s.scene;
    if |snap.joints| > 0 && sc.baseY != 0.0 then
      sc.baseY + (snap.joints[0].y - sc.referenceY) * HeightScale + pivot + 0.02
    else (if sc.baseY != 0.0 then sc.baseY else sc.mapFrame.topY) + pivot + 0.1
  }

  /** `updateCarVerticalPosition(true)`. */
  function Settle(s: Sim, snap: SimData, g: Ground): Sim {
    match g
    case Hit(groundY, restY) => Contact(s, groundY, restY)
    case _ =>
      s.(car := s.car.(position := s.car.position.(y := DefaultY(s, snap))),
         motion := s.motion.(onValidGround := false, isFalling := false, verticalVelocity := 0.0,
                             isTumbling := false))
  }

  // ----- sequencing -----

  /** The car part of `resetSequence`: back to the start of its range at
      rest, then settled; the height it is first lifted to is overwritten
      by the settle step in every case. */
  function ResetCar(s: Sim, snap: SimData, g: Ground): Sim {
    var cleared := s.(runs := s.runs.(isCarRunning := false, hasCarCompletedRun := false),
                      motion := s.motion.(isFalling := false, verticalVelocity := 0.0, isTumbling := false,
                                          onValidGround := false),
                      car := s.car.(position := Vec3(s.car.initialX, s.car.position.y, s.car.zMin)));
    var settled := Settle(cleared, snap, g);
    if settled.motion.onValidGround then settled
    else settled.(motion := settled.motion.(lastGroundY := settled.car.position.y + settled.car.bottomOffset))
  }

  /** `resetSequence`. */
  function Reset(s: Sim, snap: SimData, g: Ground): Sim {
    var withCar := if s.car.present then ResetCar(s, snap, g) else s;
    withCar.(boat := if s.boat.present then withCar.boat.(x := s.boat.initialX) else withCar.boat,
             runs := withCar.runs.(isBoatMoving := false, hasBoatCompletedRun := false))
  }

  /** `startSequence`. */
  function Start(s: Sim, snap: SimData, g: Ground): Sim {
    if !s.car.present then s
    else
      var r := Reset(s, snap, g);
      if !r.boat.present || r.runs.hasBoatCompletedRun then
        r.(runs := r.runs.(isBoatMoving := false, isCarRunning := true))
      else r.(runs := r.runs.(isBoatMoving := true))
  }

  /** `handlePlayReset`. */
  function PlayReset(s: Sim, snap: SimData, g: Ground): Sim {
    if AnyRun(s.runs) then Reset(s, snap, g) else Start(s, snap, g)
  }

  /** `activate`: with a map but no car the bridge is laid out if it has no
      meshes and the car load starts; with a car the sequence is reset. */
  function Activated(s: Sim, snap: SimData, g: Ground): Sim {
    var a := s.(isActive := true);
    if !s.scene.hasMap then a
    else if !s.car.present then (if s.scene.hasBridgeMeshes then a else BuildBridge(a, snap))
    else Reset(a, snap, g)
  }

  function Deactivated(s: Sim): Sim {
    s.(isActive := false, runs := s.runs.(isCarRunning := false, isBoatMoving := false))
  }

  /** `dispose`: deactivates and drops the car, the map, the boat and the
      bridge meshes. */
  function Disposed(s: Sim): Sim {
    var d := Deactivated(s);
    d.(car := d.car.(present := false), boat := d.boat.(present := false),
       scene := d.scene.(hasMap := false, hasBridgeMeshes := false))
  }

  // ----- one frame -----

  /** The boat part of `update`: the boat sails towards its target at its
      speed and snaps onto it once the step would reach it; a missing boat
      completes at once.  Either way the car then runs. */
  function BoatStep(s: Sim, d: real): Sim {
    var b, r := s.boat, s.runs;
    var done := r.(isBoatMoving := false, hasBoatCompletedRun := true,
                   isCarRunning := s.car.present || r.isCarRunning);
    if r.isBoatMoving && !r.hasBoatCompletedRun && b.present then
      var move := b.speed * d;
      if move >= Abs(b.targetX - b.x) - ArrivalSlack then s.(boat := b.(x := b.targetX), runs := done)
      else s.(boat := b.(x := b.x + Sign(b.targetX - b.x) * move))
    else if r.isBoatMoving && !b.present && !r.hasBoatCompletedRun then s.(runs := done)
    else s
  }

  /** The completion check after a drive step: a car moving forward that is
      within the slack of the end of its range is clamped onto it, and one
      moving backward onto the start. */
  function Finish(s: Sim): Sim {
    var c := s.car;
    var stop := s.runs.(hasCarCompletedRun := true, isCarRunning := false);
    if s.runs.hasCarCompletedRun then s
    else if c.speed > 0.0 && c.position.z >= c.zMax - ArrivalSlack then
      s.(car := c.(position := c.position.(z := c.zMax)), runs := stop)
    else if c.speed < 0.0 && c.position.z <= c.zMin + ArrivalSlack then
      s.(car := c.(position := c.position.(z := c.zMin)), runs := stop)
    else s
  }

  /** The drive part of `update`. */
  function Drive(s: Sim, wallAhead: bool, move: Vec3): Sim {
    if !(s.runs.isCarRunning && !s.runs.hasCarCompletedRun) then s
    else
      var stop := s.runs.(hasCarCompletedRun := true, isCarRunning := false);
      var s1 := if s.car.zMin >= s.car.zMax then s.(runs := stop) else s;
      if s1.motion.isTumbling then s1
      else if s1.scene.hasMap && Abs(s1.car.speed) > ObstacleMinSpeed && wallAhead then s1.(runs := stop)
      else Finish(s1.(car := s1.car.(position := Plus(s1.car.position, move))))
  }

  /** The gravity part of `update`. */
  function Fall(s: Sim, d: real): Sim {
    if s.motion.isFalling then
      var v := s.motion.verticalVelocity - Gravity * d;
      s.(motion := s.motion.(verticalVelocity := v),
         car := s.car.(position := s.car.position.(y := s.car.position.y + v * d)))
    else s
  }

  /** Whether the car is below the world's floor. */
  predicate OutOfWorld(c: Car) {
    c.position.y < MinWorldY && c.position.y + c.bottomOffset < MinWorldY
  }

  /** `update` up to its final check: boat, ground contact, drive, gravity. */
  function Tick(s: Sim, d: real, env: Sensing): Sim {
    var s1 := BoatStep(s, d);
    var s2 := if !s1.motion.isTumbling then VerticalStep(s1, env.ground) else s1;
    Fall(Drive(s2, env.wallAhead, env.move), d)
  }

  /** `update(deltaTime)`: a car below the world's floor is reset at the end. */
  function Step(s: Sim, snap: SimData, dt: real, env: Sensing): Sim {
    if !s.isActive || dt <= 0.0 || !s.car.present then s
    else
      var s4 := Tick(s, StepTime(dt), env);
      if OutOfWorld(s4.car) then Reset(s4, snap, env.resetGround) else s4
  }

  // ----- what the operations promise -----

  /** After a reset the boat (if any) is at its start and neither the boat
      nor, when there is a car, the car runs or has run. */
  lemma ResetRuns(s: Sim, snap: SimData, g: Ground)
    ensures var r := Reset(s, snap, g);
      !r.runs.isBoatMoving && !r.runs.hasBoatCompletedRun &&
      (s.boat.present ==> r.boat.x == s.boat.initialX) &&
      (s.car.present ==> !r.runs.isCarRunning && !r.runs.hasCarCompletedRun) &&
      (!s.car.present ==> r.car == s.car && r.runs.isCarRunning == s.runs.isCarRunning) &&
      r.car.present == s.car.present && r.boat.present == s.boat.present && r.isActive == s.isActive &&
      r.car.zMin == s.car.zMin && r.car.zMax == s.car.zMax
  {
  }

  /** After a reset a car is back at the start of its range at rest: on the
      ground the rays find, or at the default height with its last ground
      height at its bottom. */
  lemma ResetCarAtStart(s: Sim, snap: SimData, g: Ground)
    requires s.car.present
    ensures var r := Reset(s, snap, g);
      !r.motion.isFalling && !r.motion.isTumbling && r.motion.verticalVelocity == 0.0 &&
      r.car.position.x == s.car.initialX && r.car.position.z == s.car.zMin &&
      (g.Hit? ==> r.motion.onValidGround && r.car.position.y == g.restY && r.motion.lastGroundY == g.groundY) &&
      (!g.Hit? ==> !r.motion.onValidGround && r.car.position.y == DefaultY(s, snap) &&
                   r.motion.lastGroundY == DefaultY(s, snap) + s.car.bottomOffset)
  {
  }

  /** Without a car, start does nothing; with one, exactly one of the boat
      and the car moves afterwards, and the boat goes first exactly when
      there is a boat. */
  lemma StartSpec(s: Sim, snap: SimData, g: Ground)
    ensures !s.car.present ==> Start(s, snap, g) == s
    ensures s.car.present ==>
      var r := Start(s, snap, g);
      (r.runs.isBoatMoving != r.runs.isCarRunning) && (r.runs.isBoatMoving <==> s.boat.present) &&
      !r.runs.hasCarCompletedRun && !r.runs.hasBoatCompletedRun &&
      r.car.position.z == s.car.zMin && (s.boat.present ==> r.boat.x == s.boat.initialX)
  {
    if s.car.present {
      ResetRuns(s, snap, g);
      ResetCarAtStart(s, snap, g);
    }
  }

  /** The play/reset button toggles: with a car, a press starts a sequence
      exactly when none is under way or finished, and resets otherwise. */
  lemma PlayResetToggles(s: Sim, snap: SimData, g: Ground)
    requires s.car.present
    ensures AnyRun(PlayReset(s, snap, g).runs) <==> !AnyRun(s.runs)
    ensures AnyRun(s.runs) ==> PlayReset(s, snap, g) == Reset(s, snap, g)
    ensures !AnyRun(s.runs) ==> PlayReset(s, snap, g) == Start(s, snap, g)
  {
    ResetRuns(s, snap, g);
    StartSpec(s, snap, g);
  }

  /** `update` does nothing when inactive, for a non-positive time step or
      without a car. */
  lemma StepGuard(s: Sim, snap: SimData, dt: real, env: Sensing)
    requires !s.isActive || dt <= 0.0 || !s.car.present
    ensures Step(s, snap, dt, env) == s
  {
  }

  /** The boat never overshoots its target, never gets further from it,
      lands exactly on it when the step reaches it, and then hands over to
      the car; a missing boat completes at once. */
  lemma BoatStepSpec(s: Sim, d: real)
    requires s.boat.speed >= 0.0 && d >= 0.0
    ensures var r := BoatStep(s, d);
      Abs(r.boat.targetX - r.boat.x) <= Abs(s.boat.targetX - s.boat.x) &&
      (r.boat.targetX - r.boat.x) * (s.boat.targetX - s.boat.x) >= 0.0 &&
      r.boat.targetX == s.boat.targetX
    ensures s.runs.isBoatMoving && !s.runs.hasBoatCompletedRun && s.boat.present &&
            s.boat.speed * d >= Abs(s.boat.targetX - s.boat.x) - ArrivalSlack ==>
      var r := BoatStep(s, d);
      r.boat.x == s.boat.targetX && r.runs.hasBoatCompletedRun && !r.runs.isBoatMoving &&
      (s.car.present ==> r.runs.isCarRunning)
    ensures s.runs.isBoatMoving && !s.runs.hasBoatCompletedRun && s.boat.present &&
            s.boat.speed * d < Abs(s.boat.targetX - s.boat.x) - ArrivalSlack ==>
      var r := BoatStep(s, d);
      Abs(r.boat.targetX - r.boat.x) == Abs(s.boat.targetX - s.boat.x) - s.boat.speed * d &&
      r.runs.isBoatMoving
    ensures s.runs.isBoatMoving && !s.boat.present && !s.runs.hasBoatCompletedRun ==>
      var r := BoatStep(s, d);
      !r.runs.isBoatMoving && r.runs.hasBoatCompletedRun && r.boat.x == s.boat.x &&
      (s.car.present ==> r.runs.isCarRunning)
  {
    var b := s.boat;
    var move := b.speed * d;
    assert move >= 0.0 by {
      if b.speed > 0.0 && d > 0.0 { MulPositive(b.speed, d); }
    }
    var before := b.targetX - b.x;
    var r := BoatStep(s, d);
    var after := r.boat.targetX - r.boat.x;
    if s.runs.isBoatMoving && !s.runs.hasBoatCompletedRun && b.present && move < Abs(before) - ArrivalSlack {
      if before > 0.0 {
        assert after == before - move;
        MulPositive(after, before);
      } else {
        assert after == before + move;
        MulPositive(-after, -before);
      }
    }
  }

  /** A falling car meeting the ground: it bounces back at 0.3 of its speed
      (so strictly slower) while faster than the bounce threshold, and stops
      otherwise; either way it rests on the ground and stops tumbling.  A
      bounce always leaves it falling: 0.3 of a speed above 0.05 is above
      0.015, so the rest test on the rebound speed never stops it. */
  lemma BounceSpec(s: Sim, groundY: real, restY: real)
    requires s.motion.isFalling
    ensures var r := Contact(s, groundY, restY); var v := s.motion.verticalVelocity;
      !r.motion.isTumbling && r.motion.onValidGround && r.motion.lastGroundY == groundY &&
      r.car.position.y >= restY &&
      (Abs(v) > MinBounceVelocity ==>
         r.motion.verticalVelocity == -BounceFactor * v &&
         Abs(r.motion.verticalVelocity) < Abs(v) &&
         (r.motion.isFalling <==> Abs(r.motion.verticalVelocity) > RestVelocity) &&
         r.motion.isFalling) &&
      (Abs(v) <= MinBounceVelocity ==> r.motion.verticalVelocity == 0.0 && !r.motion.isFalling)
  {
  }

  /** A car on the ground that was not falling stays at rest. */
  lemma ContactAtRest(s: Sim, groundY: real, restY: real)
    requires !s.motion.isFalling
    ensures var r := Contact(s, groundY, restY);
      r.motion.verticalVelocity == 0.0 && !r.motion.isFalling && r.car.position.y == restY &&
      r.motion.isTumbling == s.motion.isTumbling
  {
  }

  /** Losing the ground always makes the car fall; it starts tumbling only
      when it drops from rest by more than the threshold, and a tumble
      already under way continues. */
  lemma AirborneSpec(s: Sim, bottomY: real)
    ensures var r := Airborne(s, bottomY); var m := s.motion;
      r.motion.isFalling && !r.motion.onValidGround &&
      (r.motion.isTumbling <==>
         m.isTumbling || (!m.isFalling && m.lastGroundY - bottomY > s.car.tumbleThreshold)) &&
      r.car == s.car && r.motion.verticalVelocity == m.verticalVelocity
  {
  }

  /** Each falling tick lowers the vertical velocity by gravity times the
      step and moves the car by the new velocity. */
  lemma FallSpec(s: Sim, d: real)
    requires d > 0.0
    ensures s.motion.isFalling ==>
      var r := Fall(s, d);
      r.motion.verticalVelocity == s.motion.verticalVelocity - Gravity * d &&
      r.motion.verticalVelocity < s.motion.verticalVelocity &&
      r.car.position.y == s.car.position.y + r.motion.verticalVelocity * d
    ensures !s.motion.isFalling ==> Fall(s, d) == s
  {
    if s.motion.isFalling {
      MulPositive(Gravity, d);
    }
  }

  /** A running car on a non-empty range that is not tumbling: a wall
      ahead stops the run where the car is; otherwise the car moves, and a
      forward run that reaches the last slack of the range is clamped onto
      its end and completes.  A forward run that is still running is short
      of that slack. */
  lemma DriveSpec(s: Sim, wallAhead: bool, move: Vec3)
    requires s.runs.isCarRunning && !s.runs.hasCarCompletedRun && !s.motion.isTumbling
    requires s.car.zMin < s.car.zMax
    ensures var r := Drive(s, wallAhead, move); var p := s.car.position;
      (s.scene.hasMap && Abs(s.car.speed) > ObstacleMinSpeed && wallAhead ==>
         r.car == s.car && r.runs.hasCarCompletedRun && !r.runs.isCarRunning) &&
      (!(s.scene.hasMap && Abs(s.car.speed) > ObstacleMinSpeed && wallAhead) ==>
         r.car.position.x == p.x + move.x && r.car.position.y == p.y + move.y &&
         (s.car.speed > 0.0 && p.z + move.z >= s.car.zMax - ArrivalSlack ==>
            r.car.position.z == s.car.zMax && r.runs.hasCarCompletedRun && !r.runs.isCarRunning) &&
         (s.car.speed > 0.0 && p.z + move.z < s.car.zMax - ArrivalSlack ==>
            r.car.position.z == p.z + move.z && r.runs.isCarRunning)) &&
      (s.car.speed > 0.0 && r.runs.isCarRunning ==> r.car.position.z < s.car.zMax - ArrivalSlack) &&
      (r.runs.hasCarCompletedRun <==> !r.runs.isCarRunning)
  {
  }

  /** A car that is not running is not moved by a drive step. */
  lemma DriveIdle(s: Sim, wallAhead: bool, move: Vec3)
    requires !s.runs.isCarRunning || s.runs.hasCarCompletedRun
    ensures Drive(s, wallAhead, move) == s
  {
  }

  /** The car's range is never empty, whatever the bridge and the car, and
      the car starts centred between the bridge's sides. */
  lemma CarLoadedRange(s: Sim, measured: Option<CarSize>)
    ensures var c := CarLoaded(s, measured).car;
      c.zMin < c.zMax && c.present &&
      c.initialX == (s.scene.extents.minX + s.scene.extents.maxX) / 2.0
  {
  }

  /** A loaded boat sets out towards a target `BoatTravel` further towards -x. */
  lemma BoatLoadedSpec(s: Sim, snap: SimData, g: Ground)
    ensures var r := BoatLoaded(s, snap, true, g);
      r.boat.present && r.boat.x == r.boat.initialX && r.boat.initialX - r.boat.targetX == BoatTravel &&
      !r.runs.isBoatMoving && !r.runs.hasBoatCompletedRun
  {
    ResetRuns(s.(boat := PlacedBoat(s.boat, s.scene)), snap, g);
  }

  // ----- the sequencing invariant -----

  lemma InitialSequenced()
    ensures Sequenced(Initial())
  {
  }

  lemma ResetSequenced(s: Sim, snap: SimData, g: Ground)
    requires Sequenced(s)
    ensures Sequenced(Reset(s, snap, g))
  {
    ResetRuns(s, snap, g);
  }

  lemma StartSequenced(s: Sim, snap: SimData, g: Ground)
    requires Sequenced(s)
    ensures Sequenced(Start(s, snap, g))
  {
    ResetRuns(s, snap, g);
  }

  lemma PlayResetSequenced(s: Sim, snap: SimData, g: Ground)
    requires Sequenced(s)
    ensures Sequenced(PlayReset(s, snap, g))
  {
    ResetSequenced(s, snap, g);
    StartSequenced(s, snap, g);
  }

  /** Every frame keeps the boat and the car from moving together and a
      completed run from running. */
  lemma TickSequenced(s: Sim, d: real, env: Sensing)
    requires Sequenced(s)
    ensures Sequenced(Tick(s, d, env))
  {
    var s1 := BoatStep(s, d);
    assert Sequenced(s1);
    var s2 := if !s1.motion.isTumbling then VerticalStep(s1, env.ground) else s1;
    assert Sequenced(s2);
    assert Sequenced(Drive(s2, env.wallAhead, env.move));
  }

  lemma StepSequenced(s: Sim, snap: SimData, dt: real, env: Sensing)
    requires Sequenced(s)
    ensures Sequenced(Step(s, snap, dt, env))
  {
    if s.isActive && dt > 0.0 && s.car.present {
      var s4 := Tick(s, StepTime(dt), env);
      TickSequenced(s, StepTime(dt), env);
      ResetSequenced(s4, snap, env.resetGround);
    }
  }

  /** Activation keeps the invariant; deactivation and disposal stop both
      runs. */
  lemma ActivateSequenced(s: Sim, snap: SimData, g: Ground)
    requires Sequenced(s)
    ensures Sequenced(Activated(s, snap, g)) && Activated(s, snap, g).isActive
    ensures Sequenced(Deactivated(s)) && Sequenced(Disposed(s))
    ensures !Deactivated(s).isActive && !Deactivated(s).runs.isCarRunning && !Deactivated(s).runs.isBoatMoving
    ensures !Disposed(s).car.present && !Disposed(s).boat.present && !Disposed(s).scene.hasMap
  {
    ResetSequenced(s.(isActive := true), snap, g);
  }

  /** The three load outcomes keep the invariant; a car's range is non-empty
      and a boat load resets the sequence. */
  lemma MapLoadedSequenced(s: Sim, snap: SimData, loaded: bool, box: Option<Frame>)
    requires Sequenced(s)
    ensures Sequenced(MapLoaded(s, snap, loaded, box))
  {
  }

  lemma CarLoadedSequenced(s: Sim, measured: Option<CarSize>)
    requires Sequenced(s)
    ensures Sequenced(CarLoaded(s, measured))
  {
  }

  lemma BoatLoadedSequenced(s: Sim, snap: SimData, loaded: bool, g: Ground)
    requires Sequenced(s)
    ensures Sequenced(BoatLoaded(s, snap, loaded, g))
  {
    ResetSequenced(if loaded then s.(boat := PlacedBoat(s.boat, s.scene)) else s, snap, g);
  }

  // ----- the mode object -----

  class SimulationMode {
    /** The graph snapshot the mode was created with. */
    const bridgeData: SimData
    var isActive: bool
    var scene: Scene
    var car: Car
    var motion: Motion
    var boat: Boat
    var runs: Runs

    function State(): Sim
      reads this
    {
      Sim(isActive, scene, car, motion, boat, runs)
    }

    ghost predicate Valid()
      reads this
    {
      Sequenced(State())
    }

    /** The constructor: nothing loaded, nothing running. */
    constructor (snapshot: SimData)
      ensures Valid() && State() == Initial() && bridgeData == snapshot
    {
      bridgeData := snapshot;
      isActive := false;
      scene := Scene(false, Frame(0.0, 0.0, 0.0), false, Extents(0.0, 0.0, 0.0, 0.0), 0.0, 0.0);
      car := Car(false, Vec3(0.0, 0.0, 0.0), InitialCarSpeed, 0.0, 0.0, 0.0, -0.1, 0.2 * 0.3);
      motion := Motion(false, 0.0, false, false, 0.0);
      boat := Boat(false, 0.0, InitialBoatSpeed, 0.0, 0.0);
      runs := NoRuns;
    }

    /** `resetSequence`; `g` is what the downward rays find at the start. */
    method ResetSequence(g: Ground)
      requires Valid()
      modifies this
      ensures Valid() && State() == Reset(old(State()), bridgeData, g)
    {
      ResetSequenced(State(), bridgeData, g);
      if car.present {
        runs := runs.(isCarRunning := false, hasCarCompletedRun := false);
        motion := motion.(isFalling := false, verticalVelocity := 0.0, isTumbling := false,
                          onValidGround := false);
        car := car.(position := Vec3(car.initialX, car.position.y, car.zMin));
        UpdateCarVerticalPosition(true, g);
        if !motion.onValidGround {
          motion := motion.(lastGroundY := car.position.y + car.bottomOffset);
        }
      }
      if boat.present {
        boat := boat.(x := boat.initialX);
      }
      runs := runs.(isBoatMoving := false, hasBoatCompletedRun := false);
    }

    /** `updateCarVerticalPosition`. */
    method UpdateCarVerticalPosition(isInitialOrResetSetup: bool, g: Ground)
      modifies this
      ensures State() == if isInitialOrResetSetup then Settle(old(State()), bridgeData, g)
                         else VerticalStep(old(State()), g)
    {
      if g.NoGeometry? && !isInitialOrResetSetup {
        motion := motion.(onValidGround := false, isFalling := true);
        return;
      }
      if g.Hit? {
        motion := motion.(onValidGround := true);
        car := car.(position := car.position.(y := g.restY));
        if motion.isFalling {
          if Abs(motion.verticalVelocity) > MinBounceVelocity {
            var v := motion.verticalVelocity * -BounceFactor;
            motion := motion.(verticalVelocity := v);
            car := car.(position := car.position.(y := car.position.y + Max(0.0, v * FrameSeconds)));
            motion := motion.(isFalling := Abs(v) > RestVelocity);
          } else {
            motion := motion.(verticalVelocity := 0.0, isFalling := false);
          }
          if motion.isTumbling {
            motion := motion.(isTumbling := false);
          }
        } else {
          motion := motion.(verticalVelocity := 0.0);
        }
        motion := motion.(lastGroundY := g.groundY);
      } else {
        motion := motion.(onValidGround := false);
        if !isInitialOrResetSetup {
          if !motion.isFalling && motion.lastGroundY - g.bottomY > car.tumbleThreshold {
            if !motion.isTumbling {
              motion := motion.(isTumbling := true);
            }
          }
          motion := motion.(isFalling := true);
        } else {
          var defaultY := DefaultY(State(), bridgeData);
          car := car.(position := car.position.(y := defaultY));
          motion := motion.(isFalling := false, verticalVelocity := 0.0, isTumbling := false);
        }
      }
    }

    /** `startSequence`. */
    method StartSequence(g: Ground)
      requires Valid()
      modifies this
      ensures Valid() && State() == Start(old(State()), bridgeData, g)
    {
      StartSequenced(State(), bridgeData, g);
      if !car.present {
        return;
      }
      ResetSequence(g);
      if !boat.present || runs.hasBoatCompletedRun {
        runs := runs.(isBoatMoving := false, isCarRunning := true);
      } else {
        runs := runs.(isBoatMoving := true);
      }
    }

    /** `handlePlayReset`. */
    method HandlePlayReset(g: Ground)
      requires Valid()
      modifies this
      ensures Valid() && State() == PlayReset(old(State()), bridgeData, g)
    {
      if runs.isCarRunning || runs.isBoatMoving || runs.hasCarCompletedRun || runs.hasBoatCompletedRun {
        ResetSequence(g);
      } else {
        StartSequence(g);
      }
    }

    /** `buildBridge3D`. */
    method BuildBridge3D()
      requires Valid()
      modifies this
      ensures Valid() && State() == BuildBridge(old(State()), bridgeData)
    {
      var layout := Bridge3D(bridgeData.joints, bridgeData.elements, [], WidthPlanes, scene.mapFrame);
      if layout.None? {
        scene := scene.(hasBridgeMeshes := false);
        return;
      }
      scene := scene.(hasBridgeMeshes := true, extents := layout.value.extents,
                      baseY := layout.value.baseY, referenceY := layout.value.referenceY);
    }

    /** The map-load callbacks; `loaded` says whether a map scene arrived
        and `box` is its bounding box, absent when empty.  The car load
        this starts completes in `OnCarLoaded`. */
    method OnMapLoaded(loaded: bool, box: Option<Frame>)
      requires Valid()
      modifies this
      ensures Valid() && State() == MapLoaded(old(State()), bridgeData, loaded, box)
    {
      if loaded {
        scene := scene.(hasMap := true);
      }
      if loaded && box.Some? {
        scene := scene.(mapFrame := box.value);
      } else {
        scene := scene.(mapFrame := Frame(0.0, 0.0, 0.0));
      }
      BuildBridge3D();
    }

    /** The car-load callbacks of `addCar`: `measured` is the loaded model's
        size, absent when loading failed and the box car is used. */
    method OnCarLoaded(measured: Option<CarSize>)
      requires Valid()
      modifies this
      ensures Valid() && State() == CarLoaded(old(State()), measured)
    {
      var size := if measured.Some? then measured.value else FallbackCar;
      car := car.(present := true, bottomOffset := size.bottomOffset, tumbleThreshold := size.height * 0.3);
      car := car.(initialX := (scene.extents.minX + scene.extents.maxX) / 2.0);
      var carHalfDepth := size.depth / 2.0;
      var zMin := scene.extents.minZ + carHalfDepth + InitialCarZPadding;
      var zMax := scene.extents.maxZ - carHalfDepth - InitialCarZPadding;
      if zMin >= zMax {
        zMax := zMin + Max(size.depth, 0.1);
      }
      car := car.(zMin := zMin, zMax := zMax);
    }

    /** The boat-load callbacks; `loaded` says whether a boat scene arrived. */
    method OnBoatLoaded(loaded: bool, g: Ground)
      requires Valid()
      modifies this
      ensures Valid() && State() == BoatLoaded(old(State()), bridgeData, loaded, g)
    {
      if loaded {
        var centerX := if scene.hasMap then scene.mapFrame.centerX else 0.0;
        boat := boat.(present := true, x := centerX + BoatOffsetX);
        boat := boat.(initialX := boat.x);
        boat := boat.(targetX := boat.initialX - BoatTravel);
      }
      ResetSequence(g);
    }

    /** `activate`; `g` is what the downward rays find if a reset happens. */
    method Activate(g: Ground)
      requires Valid()
      modifies this
      ensures Valid() && State() == Activated(old(State()), bridgeData, g)
    {
      isActive := true;
      if !scene.hasMap {
      } else if !car.present {
        if !scene.hasBridgeMeshes {
          BuildBridge3D();
        }
      } else {
        ResetSequence(g);
      }
    }

    method Deactivate()
      requires Valid()
      modifies this
      ensures Valid() && State() == Deactivated(old(State()))
    {
      isActive := false;
      runs := runs.(isCarRunning := false, isBoatMoving := false);
    }

    method Dispose()
      requires Valid()
      modifies this
      ensures Valid() && State() == Disposed(old(State()))
    {
      Deactivate();
      car := car.(present := false);
      scene := scene.(hasMap := false);
      boat := boat.(present := false);
      scene := scene.(hasBridgeMeshes := false);
    }

    /** `update(deltaTime)`. */
    method Update(deltaTime: real, env: Sensing)
      requires Valid()
      modifies this
      ensures Valid() && State() == Step(old(State()), bridgeData, deltaTime, env)
    {
      if !isActive || deltaTime <= 0.0 || !car.present {
        return;
      }
      var dt := deltaTime;
      if dt > MaxStep {
        dt := MaxStep;
      }
      ghost var s0 := State();
      TickSequenced(s0, dt, env);
      MoveBoat(dt);
      if !motion.isTumbling {
        UpdateCarVerticalPosition(false, env.ground);
      }
      DriveCar(env.wallAhead, env.move);
      ApplyGravity(dt);
      assert State() == Tick(s0, dt, env);
      if car.position.y < MinWorldY && car.position.y + car.bottomOffset < MinWorldY {
        ResetSequence(env.resetGround);
      }
    }

    /** The gravity part of `update`. */
    method ApplyGravity(dt: real)
      modifies this
      ensures State() == Fall(old(State()), dt)
    {
      if motion.isFalling {
        motion := motion.(verticalVelocity := motion.verticalVelocity - Gravity * dt);
        car := car.(position := car.position.(y := car.position.y + motion.verticalVelocity * dt));
      }
    }

    /** The boat part of `update`. */
    method MoveBoat(dt: real)
      modifies this
      ensures State() == BoatStep(old(State()), dt)
    {
      if runs.isBoatMoving && !runs.hasBoatCompletedRun && boat.present {
        var direction := Sign(boat.targetX - boat.x);
        var distanceToTarget := Abs(boat.targetX - boat.x);
        var moveDistance := boat.speed * dt;
        if moveDistance >= distanceToTarget - ArrivalSlack {
          boat := boat.(x := boat.targetX);
          runs := runs.(isBoatMoving := false, hasBoatCompletedRun := true);
          if car.present {
            runs := runs.(isCarRunning := true);
          }
        } else {
          boat := boat.(x := boat.x + direction * moveDistance);
        }
      } else if runs.isBoatMoving && !boat.present && !runs.hasBoatCompletedRun {
        runs := runs.(isBoatMoving := false, hasBoatCompletedRun := true);
        if car.present {
          runs := runs.(isCarRunning := true);
        }
      }
    }

    /** The drive part of `update`. */
    method DriveCar(wallAhead: bool, move: Vec3)
      modifies this
      ensures State() == Drive(old(State()), wallAhead, move)
    {
      if !(runs.isCarRunning && !runs.hasCarCompletedRun) {
        return;
      }
      if car.zMin >= car.zMax {
        runs := runs.(hasCarCompletedRun := true, isCarRunning := false);
      }
      if motion.isTumbling {
        return;
      }
      var shouldStopDueToFrontObstacle := scene.hasMap && Abs(car.speed) > ObstacleMinSpeed && wallAhead;
      if shouldStopDueToFrontObstacle {
        runs := runs.(hasCarCompletedRun := true, isCarRunning := false);
        return;
      }
      car := car.(position := Plus(car.position, move));
      if !runs.hasCarCompletedRun {
        if car.speed > 0.0 && car.position.z >= car.zMax - ArrivalSlack {
          car := car.(position := car.position.(z := car.zMax));
          runs := runs.(hasCarCompletedRun := true, isCarRunning := false);
        } else if car.speed < 0.0 && car.position.z <= car.zMin + ArrivalSlack {
          car := car.(position := car.position.(z := car.zMin));
          runs := runs.(hasCarCompletedRun := true, isCarRunning := false);
        }
      }
    }
  }
}
