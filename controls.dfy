/**
 * The player controller: it turns the pilot's inputs into deflections of the
 * four pairs of control surfaces (flaps, ailerons, elevators, rudders),
 * levels the wings on its own when the pilot lets go, pushes lift into the
 * body, forwards the throttle and the pitch to the thruster, and keeps the
 * state of a checkpoint race.
 *
 * The global input record is a value passed to and returned by the handlers.
 * Everything the engine measures (euler angles, the cosine of the wing angle,
 * the speed, the ground raycast, the clock) arrives as a parameter.
 */
module Player {
  import opened Maths
  import opened Body
  import opened ThrusterComponent

  /** The pilot's input: yaw, pitch and roll in [-1, 1], thruster and brake power in [0, 1]. */
  datatype PlaneInput = PlaneInput(yaw: real, pitch: real, roll: real, thrusterPower: real, brakePower: real)

  /** Tuning of each pair of control surfaces. */
  datatype Flaps = Flaps(maxPitch: real, brakeExtraPitch: real)
  datatype Ailerons = Ailerons(maxPitch: real)
  datatype Elevators = Elevators(maxPitch: real, turnExtraPitch: real)
  datatype Rudders = Rudders(maxPitch: real, outerRudderPitchPercentage: real)

  /** Target angles of the left and right surface of a pair. */
  datatype Deflection = Deflection(left: real, right: real)

  /** The local euler angles of the left and right surface of a pair. */
  datatype SurfacePair = SurfacePair(left: Vec3, right: Vec3)

  // ---------------------------------------------------------------- targets

  /** The flap angle: pitch input tilts the flaps, the brake lowers them further. */
  function FlapTarget(flaps: Flaps, input: PlaneInput): real {
    -flaps.maxPitch * input.pitch - flaps.brakeExtraPitch * input.brakePower
  }

  /**
   * The flap angle is the sum of a pitch part, odd in the pitch input, and a
   * brake part that lowers it by the extra pitch per unit of brake.
   */
  lemma FlapTargetParts(flaps: Flaps, input: PlaneInput)
    ensures FlapTarget(flaps, input)
         == FlapTarget(flaps, input.(brakePower := 0.0)) - flaps.brakeExtraPitch * input.brakePower
    ensures FlapTarget(flaps, input.(pitch := -input.pitch, brakePower := 0.0))
         == -FlapTarget(flaps, input.(brakePower := 0.0))
  {
  }

  /** Bank angles within this many degrees of level count as level. */
  const AutoLevelEpsilon: real := 6.0
  /** Shifts the auto-level decision toward inverted flight. */
  const InvertedFlightPreference: real := -25.0

  /** The bank test of the auto-level: the remainder of the shifted bank angle modulo 180 is small. */
  predicate Horizontal(eulerZ: real) {
    Abs(FMod(eulerZ + AutoLevelEpsilon, 180.0)) < AutoLevelEpsilon * 2.0
  }

  /**
   * For a bank angle as the engine reads it back, in [0, 360), the bank
   * counts as level exactly within [-6, 6) degrees of level or of inverted
   * flight.
   */
  lemma HorizontalBand(z: real)
    requires 0.0 <= z < 360.0
    ensures Horizontal(z) <==> (z < 6.0 || 174.0 <= z < 186.0 || 354.0 <= z)
  {
    var x := z + 6.0;
    var k := (x / 180.0).Floor;
    assert (k as real) * 180.0 <= x < (k as real) * 180.0 + 180.0;
    assert Trunc(x / 180.0) == k;
    assert FMod(x, 180.0) == x - 180.0 * (k as real);
    assert 0 <= k <= 2;
    if k == 0 {
      assert FMod(x, 180.0) == x;
    } else if k == 1 {
      assert FMod(x, 180.0) == x - 180.0;
    } else {
      assert FMod(x, 180.0) == x - 360.0;
    }
  }

  /** The side the auto-level banks toward: right in the first and third quadrants, shifted. */
  predicate TurnsRight(eulerZ: real) {
    || (eulerZ > 0.0 && eulerZ < 90.0 - InvertedFlightPreference)
    || (eulerZ > 180.0 && eulerZ < 270.0 + InvertedFlightPreference)
  }

  /** The auto-level takes over with no roll or yaw input, a banked plane, and the check enabled. */
  predicate AutoLevels(input: PlaneInput, eulerZ: real, checkRoll: bool) {
    input.roll == 0.0 && input.yaw == 0.0 && !Horizontal(eulerZ) && checkRoll
  }

  /** The aileron angle: proportional to roll, unless the auto-level takes over. */
  function AileronTarget(ailerons: Ailerons, input: PlaneInput, eulerZ: real, checkRoll: bool): real {
    if AutoLevels(input, eulerZ, checkRoll) then
      (if TurnsRight(eulerZ) then -1.0 else 1.0) * ailerons.maxPitch / 3.0
    else
      ailerons.maxPitch * input.roll
  }

  /**
   * For a bank angle in [0, 360): the auto-level takes over exactly when
   * there is no roll or yaw input, the check is on and the bank is outside
   * the level bands; it then commands a third of the maximum pitch, negative
   * exactly in (0, 115) and (180, 245) degrees. Otherwise the aileron follows
   * the roll input.
   */
  lemma AileronTargetRule(ailerons: Ailerons, input: PlaneInput, eulerZ: real, checkRoll: bool)
    requires 0.0 <= eulerZ < 360.0
    ensures AutoLevels(input, eulerZ, checkRoll) <==>
      && input.roll == 0.0 && input.yaw == 0.0 && checkRoll
      && !(eulerZ < 6.0 || 174.0 <= eulerZ < 186.0 || 354.0 <= eulerZ)
    ensures AutoLevels(input, eulerZ, checkRoll) ==>
      AileronTarget(ailerons, input, eulerZ, checkRoll) ==
        (if 0.0 < eulerZ < 115.0 || 180.0 < eulerZ < 245.0 then -ailerons.maxPitch / 3.0 else ailerons.maxPitch / 3.0)
    ensures !AutoLevels(input, eulerZ, checkRoll) ==>
      AileronTarget(ailerons, input, eulerZ, checkRoll) == ailerons.maxPitch * input.roll
  {
    HorizontalBand(eulerZ);
  }

  /** The elevator angles: pitch moves both alike, yaw moves them apart. */
  function ElevatorTargets(elevators: Elevators, input: PlaneInput): Deflection {
    Deflection(elevators.maxPitch * input.pitch + elevators.turnExtraPitch * input.yaw,
               elevators.maxPitch * input.pitch + -elevators.turnExtraPitch * input.yaw)
  }

  /** Half the sum of the elevator angles is the pitch command, half their difference the turn command. */
  lemma ElevatorSumAndDifference(elevators: Elevators, input: PlaneInput)
    ensures var d := ElevatorTargets(elevators, input);
            && d.left + d.right == 2.0 * elevators.maxPitch * input.pitch
            && d.left - d.right == 2.0 * elevators.turnExtraPitch * input.yaw
  {
  }

  /**
   * The rudder angles: both follow the yaw input, but in a turn the outer
   * rudder only tilts by a percentage of the inner one.
   */
  function RudderTargets(rudders: Rudders, input: PlaneInput): Deflection {
    var leftMultiplier := if input.yaw > 0.0 then rudders.outerRudderPitchPercentage else 1.0;
    var rightMultiplier := if input.yaw < 0.0 then rudders.outerRudderPitchPercentage else 1.0;
    Deflection(-rudders.maxPitch * input.yaw * leftMultiplier,
               -rudders.maxPitch * input.yaw * rightMultiplier)
  }

  /**
   * Yawing right, the right rudder takes the full angle and the left one the
   * percentage of it; yawing left, the other way round; with no yaw both are
   * centred.
   */
  lemma RudderOuterShare(rudders: Rudders, input: PlaneInput)
    ensures var d := RudderTargets(rudders, input);
            var full := -rudders.maxPitch * input.yaw;
            && (input.yaw > 0.0 ==> d.right == full && d.left == rudders.outerRudderPitchPercentage * full)
            && (input.yaw < 0.0 ==> d.left == full && d.right == rudders.outerRudderPitchPercentage * full)
            && (input.yaw == 0.0 ==> d.left == 0.0 && d.right == 0.0)
  {
  }

  /**
   * The angle written to a surface: the target itself, or with smoothing on,
   * one LerpAngle step from the current angle toward it.
   */
  function Applied(lerp: bool, current: real, target: real, t: real): real {
    if lerp then LerpAngle(current, target, t) else target
  }

  /**
   * Without smoothing the target is written at once; with smoothing a step
   * turns the surface by at most half a turn, and a step of t >= 1 lands on
   * the target up to whole turns.
   */
  lemma AppliedApproachesTarget(lerp: bool, current: real, target: real, t: real)
    ensures !lerp ==> Applied(lerp, current, target, t) == target
    ensures lerp ==> Abs(Applied(lerp, current, target, t) - current) <= 180.0
    ensures lerp && t >= 1.0 ==> IsWholeTurns(Applied(lerp, current, target, t) - target)
  {
    LerpAngleStep(current, target, t);
    if t >= 1.0 {
      LerpAngleReachesTarget(current, target, t);
    }
  }

  /** The lift: along the plane's up axis, scaled by the lift force, the speed ratio and the wing angle factor. */
  function Lift(up: Vec3, liftForce: real, speedPercent: real, angleFactor: real): Vec3 {
    Scale(angleFactor, Scale(speedPercent, Scale(liftForce, up)))
  }

  /**
   * The lift is a multiple of the up axis, bounded by lift force times speed
   * ratio when the angle factor is a cosine; a plane at rest gets none.
   */
  lemma LiftAlongUp(up: Vec3, liftForce: real, speedPercent: real, angleFactor: real)
    requires -1.0 <= angleFactor <= 1.0 && speedPercent >= 0.0
    ensures exists k :: Lift(up, liftForce, speedPercent, angleFactor) == Scale(k, up)
                        && -Abs(liftForce) * speedPercent <= k <= Abs(liftForce) * speedPercent
    ensures speedPercent == 0.0 ==> Lift(up, liftForce, speedPercent, angleFactor) == Zero
  {
    var m := liftForce * speedPercent;
    AbsMulNonNeg(liftForce, speedPercent);
    AbsScaleBounded(angleFactor, m);
    var k := angleFactor * m;
    ScaleScale(speedPercent, liftForce, up);
    assert speedPercent * liftForce == m;
    ScaleScale(angleFactor, m, up);
    assert Lift(up, liftForce, speedPercent, angleFactor) == Scale(k, up);
  }

  // ------------------------------------------------------------ checkpoints

  /** A checkpoint of the race course: its game object's name and whether it is active. */
  datatype Checkpoint = Checkpoint(name: string, active: bool)

  /** The sibling a reached checkpoint activates: the first one after END, else the next one. */
  function ActivatedSibling(name: string, index: nat): nat {
    if name == "END" then 0 else index + 1
  }

  // ------------------------------------------------------------- controller

  class PlayerController {
    const invertX: bool
    const invertY: bool
    const automaticWheelDeploy: bool
    const checkRoll: bool
    const liftForce: real
    const lerp: bool
    const lerpSpeed: real
    const flaps: Flaps
    const ailerons: Ailerons
    const elevators: Elevators
    const rudders: Rudders
    const thrusters: Thruster
    const physics: AerodynamicObject

    var lockInput: bool
    var wheelsDeployed: bool
    var inRace: bool
    var totalTimeStart: real
    var currentTimeStart: real

    var flapAngles: SurfacePair
    var aileronAngles: SurfacePair
    var elevatorAngles: SurfacePair
    var rudderAngles: SurfacePair

    /**
     * A new component: the inspector settings, the starting angles of the
     * eight surfaces, and the engine's defaults for the rest.
     */
    constructor (invertX: bool, invertY: bool, automaticWheelDeploy: bool, checkRoll: bool,
                 liftForce: real, lerp: bool, lerpSpeed: real,
                 flaps: Flaps, ailerons: Ailerons, elevators: Elevators, rudders: Rudders,
                 thrusters: Thruster, physics: AerodynamicObject,
                 flapAngles: SurfacePair, aileronAngles: SurfacePair,
                 elevatorAngles: SurfacePair, rudderAngles: SurfacePair)
      ensures this.invertX == invertX && this.invertY == invertY
      ensures this.automaticWheelDeploy == automaticWheelDeploy && this.checkRoll == checkRoll
      ensures this.liftForce == liftForce && this.lerp == lerp && this.lerpSpeed == lerpSpeed
      ensures this.flaps == flaps && this.ailerons == ailerons
      ensures this.elevators == elevators && this.rudders == rudders
      ensures this.thrusters == thrusters && this.physics == physics
      ensures !lockInput && !wheelsDeployed && !inRace
      ensures totalTimeStart == 0.0 && currentTimeStart == 0.0
      ensures this.flapAngles == flapAngles && this.aileronAngles == aileronAngles
      ensures this.elevatorAngles == elevatorAngles && this.rudderAngles == rudderAngles
    {
      this.invertX := invertX;
      this.invertY := invertY;
      this.automaticWheelDeploy := automaticWheelDeploy;
      this.checkRoll := checkRoll;
      this.liftForce := liftForce;
      this.lerp := lerp;
      this.lerpSpeed := lerpSpeed;
      this.flaps := flaps;
      this.ailerons := ailerons;
      this.elevators := elevators;
      this.rudders := rudders;
      this.thrusters := thrusters;
      this.physics := physics;
      lockInput := false;
      wheelsDeployed := false;
      inRace := false;
      totalTimeStart := 0.0;
      currentTimeStart := 0.0;
      this.flapAngles := flapAngles;
      this.aileronAngles := aileronAngles;
      this.elevatorAngles := elevatorAngles;
      this.rudderAngles := rudderAngles;
    }

    /** Start: wheels down, input unlocked, not racing. */
    method Start()
      modifies this`wheelsDeployed, this`lockInput, this`inRace
      ensures wheelsDeployed && !lockInput && !inRace
    {
      wheelsDeployed := true;
      lockInput := false;
      inRace := false;
    }

    // ----------------------------------------------------- surface movement

    /** Both flaps get the same angle, each keeping its own x and y. */
    method MoveFlaps(input: PlaneInput, deltaTime: real)
      modifies this`flapAngles
      ensures var angle := Applied(lerp, old(flapAngles.left.z), FlapTarget(flaps, input), deltaTime * lerpSpeed);
              flapAngles == SurfacePair(old(flapAngles.left).(z := angle), old(flapAngles.right).(z := angle))
    {
      var angle := FlapTarget(flaps, input);
      var lerpedAngle := if lerp then LerpAngle(flapAngles.left.z, angle, deltaTime * lerpSpeed) else angle;
      flapAngles := flapAngles.(left := Vec3(flapAngles.left.x, flapAngles.left.y, lerpedAngle));
      flapAngles := flapAngles.(right := Vec3(flapAngles.right.x, flapAngles.right.y, lerpedAngle));
    }

    /**
     * The right aileron gets the (smoothed) aileron angle and the left one its
     * negation, also when the auto-level takes over. `eulerZ` is the plane's
     * bank angle as the engine reads it back.
     */
    method MoveAilerons(input: PlaneInput, deltaTime: real, eulerZ: real)
      modifies this`aileronAngles
      ensures var angle := Applied(lerp, old(aileronAngles.right.z),
                                   AileronTarget(ailerons, input, eulerZ, checkRoll), deltaTime * lerpSpeed);
              aileronAngles == SurfacePair(old(aileronAngles.left).(z := -angle), old(aileronAngles.right).(z := angle))
    {
      var angle := ailerons.maxPitch * input.roll;
      var nullInput := input.roll == 0.0 && input.yaw == 0.0;
      var horizontal := Abs(FMod(eulerZ + AutoLevelEpsilon, 180.0)) < AutoLevelEpsilon * 2.0;
      if nullInput && !horizontal && checkRoll {
        var turnRight := (eulerZ > 0.0 && eulerZ < 90.0 - InvertedFlightPreference)
                      || (eulerZ > 180.0 && eulerZ < 270.0 + InvertedFlightPreference);
        angle := (if turnRight then -1.0 else 1.0) * ailerons.maxPitch / 3.0;
      }
      assert angle == AileronTarget(ailerons, input, eulerZ, checkRoll);
      var lerpedAngle := if lerp then LerpAngle(aileronAngles.right.z, angle, deltaTime * lerpSpeed) else angle;
      aileronAngles := aileronAngles.(left := Vec3(aileronAngles.left.x, aileronAngles.left.y, -lerpedAngle));
      aileronAngles := aileronAngles.(right := Vec3(aileronAngles.right.x, aileronAngles.right.y, lerpedAngle));
    }

    /** Each elevator is moved toward its own target. */
    method MoveElevators(input: PlaneInput, deltaTime: real)
      modifies this`elevatorAngles
      ensures var targets := ElevatorTargets(elevators, input);
              var t := deltaTime * lerpSpeed;
              elevatorAngles == SurfacePair(
                old(elevatorAngles.left).(z := Applied(lerp, old(elevatorAngles.left.z), targets.left, t)),
                old(elevatorAngles.right).(z := Applied(lerp, old(elevatorAngles.right.z), targets.right, t)))
    {
      var leftAngle := elevators.maxPitch * input.pitch + elevators.turnExtraPitch * input.yaw;
      assert leftAngle == ElevatorTargets(elevators, input).left;
      var lerpedLeftAngle := if lerp then LerpAngle(elevatorAngles.left.z, leftAngle, deltaTime * lerpSpeed) else leftAngle;
      elevatorAngles := elevatorAngles.(left := Vec3(elevatorAngles.left.x, elevatorAngles.left.y, lerpedLeftAngle));

      var rightAngle := elevators.maxPitch * input.pitch + -elevators.turnExtraPitch * input.yaw;
      assert rightAngle == ElevatorTargets(elevators, input).right;
      var lerpedRightAngle := if lerp then LerpAngle(elevatorAngles.right.z, rightAngle, deltaTime * lerpSpeed) else rightAngle;
      elevatorAngles := elevatorAngles.(right := Vec3(elevatorAngles.right.x, elevatorAngles.right.y, lerpedRightAngle));
    }

    /** Each rudder is moved toward its own target. */
    method MoveRudders(input: PlaneInput, deltaTime: real)
      modifies this`rudderAngles
      ensures var targets := RudderTargets(rudders, input);
              var t := deltaTime * lerpSpeed;
              rudderAngles == SurfacePair(
                old(rudderAngles.left).(z := Applied(lerp, old(rudderAngles.left.z), targets.left, t)),
                old(rudderAngles.right).(z := Applied(lerp, old(rudderAngles.right.z), targets.right, t)))
    {
      var multiplier := if input.yaw > 0.0 then rudders.outerRudderPitchPercentage else 1.0;
      var leftAngle := -rudders.maxPitch * input.yaw * multiplier;
      assert leftAngle == RudderTargets(rudders, input).left;
      var lerpedLeftAngle := if lerp then LerpAngle(rudderAngles.left.z, leftAngle, deltaTime * lerpSpeed) else leftAngle;
      rudderAngles := rudderAngles.(left := Vec3(rudderAngles.left.x, rudderAngles.left.y, lerpedLeftAngle));

      multiplier := if input.yaw < 0.0 then rudders.outerRudderPitchPercentage else 1.0;
      var rightRealAngle := -rudders.maxPitch * input.yaw * multiplier;
      assert rightRealAngle == RudderTargets(rudders, input).right;
      var lerpedRightAngle := if lerp then LerpAngle(rudderAngles.right.z, rightRealAngle, deltaTime * lerpSpeed) else rightRealAngle;
      rudderAngles := rudderAngles.(right := Vec3(rudderAngles.right.x, rudderAngles.right.y, lerpedRightAngle));
    }

    /** The per-frame update: the four pairs of surfaces, one after the other. */
    method Update(input: PlaneInput, deltaTime: real, eulerZ: real)
      modifies this`flapAngles, this`aileronAngles, this`elevatorAngles, this`rudderAngles
      ensures var t := deltaTime * lerpSpeed;
              var flap := Applied(lerp, old(flapAngles.left.z), FlapTarget(flaps, input), t);
              flapAngles == SurfacePair(old(flapAngles.left).(z := flap), old(flapAngles.right).(z := flap))
      ensures var t := deltaTime * lerpSpeed;
              var aileron := Applied(lerp, old(aileronAngles.right.z), AileronTarget(ailerons, input, eulerZ, checkRoll), t);
              aileronAngles == SurfacePair(old(aileronAngles.left).(z := -aileron), old(aileronAngles.right).(z := aileron))
      ensures var targets := ElevatorTargets(elevators, input);
              var t := deltaTime * lerpSpeed;
              elevatorAngles == SurfacePair(
                old(elevatorAngles.left).(z := Applied(lerp, old(elevatorAngles.left.z), targets.left, t)),
                old(elevatorAngles.right).(z := Applied(lerp, old(elevatorAngles.right.z), targets.right, t)))
      ensures var targets := RudderTargets(rudders, input);
              var t := deltaTime * lerpSpeed;
              rudderAngles == SurfacePair(
                old(rudderAngles.left).(z := Applied(lerp, old(rudderAngles.left.z), targets.left, t)),
                old(rudderAngles.right).(z := Applied(lerp, old(rudderAngles.right.z), targets.right, t)))
    {
      MoveFlaps(input, deltaTime);
      MoveAilerons(input, deltaTime, eulerZ);
      MoveElevators(input, deltaTime);
      MoveRudders(input, deltaTime);
    }

    // ---------------------------------------------------------------- physics

    /**
     * Pushes the lift into the body as an acceleration. `speed` is the
     * engine's magnitude of the velocity and `angleFactor` its cosine of the
     * plane's local bank angle.
     */
    method ApplyLift(up: Vec3, position: Vec3, speed: real, angleFactor: real)
      requires IsMagnitude(physics.Velocity(), speed)
      modifies physics.rigidbody
      ensures physics.Velocity() == old(physics.Velocity())
      ensures physics.rigidbody.log == old(physics.rigidbody.log) +
        [AppliedForce(Lift(up, liftForce, physics.SpeedPercent(speed), angleFactor), position, Acceleration)]
    {
      var force := Lift(up, liftForce, physics.SpeedPercent(speed), angleFactor);
      physics.AddForceAtPosition(force, position, Acceleration);
    }

    /** Wheels follow the ground raycast; `terrainBelow` is its result. */
    method CheckWheels(terrainBelow: bool)
      modifies this`wheelsDeployed
      ensures wheelsDeployed == terrainBelow
    {
      wheelsDeployed := terrainBelow;
    }

    /** The physics tick: lift, then the automatic wheel check when it is enabled. */
    method FixedUpdate(up: Vec3, position: Vec3, speed: real, angleFactor: real, terrainBelow: bool)
      requires IsMagnitude(physics.Velocity(), speed)
      modifies physics.rigidbody, this`wheelsDeployed
      ensures physics.Velocity() == old(physics.Velocity())
      ensures physics.rigidbody.log == old(physics.rigidbody.log) +
        [AppliedForce(Lift(up, liftForce, physics.SpeedPercent(speed), angleFactor), position, Acceleration)]
      ensures wheelsDeployed == if automaticWheelDeploy then terrainBelow else old(wheelsDeployed)
    {
      ApplyLift(up, position, speed, angleFactor);
      if automaticWheelDeploy {
        CheckWheels(terrainBelow);
      }
    }

    // ------------------------------------------------------------ input events

    /** Throttle: records the thruster power and sets the thruster to it, unless input is locked. */
    method OnThrottlePressed(input: PlaneInput, value: real) returns (next: PlaneInput)
      requires thrusters.Valid()
      modifies thrusters, thrusters.particles
      ensures thrusters.Valid()
      ensures lockInput ==> next == input && unchanged(thrusters) && unchanged(thrusters.particles)
      ensures !lockInput ==> next == input.(thrusterPower := value)
      ensures !lockInput ==> thrusters.Power == Clamp01(value)
      ensures !lockInput ==> thrusters.Angle == ScaledAngle(old(thrusters.Angle), thrusters.maxAngle)
      ensures !lockInput ==> thrusters.nozzle == Vec3(old(thrusters.Angle), 0.0, 0.0)
      ensures !lockInput ==>
        var covers := CoverAngles(thrusters.Angle, thrusters.maxOpening * thrusters.Power);
        && thrusters.topCover == Vec3(covers.top, old(thrusters.topCover.y), old(thrusters.topCover.z))
        && thrusters.bottomCover == Vec3(covers.bottom, old(thrusters.topCover.y), old(thrusters.topCover.z))
      ensures !lockInput ==>
        forall i :: 0 <= i < thrusters.particles.Length ==>
          thrusters.particles[i] == Emission(thrusters.Power, thrusters.maxParticles)
    {
      if lockInput {
        return input;
      }
      next := input.(thrusterPower := value);
      thrusters.SetPower(next.thrusterPower);
    }

    /** Brake: records the brake power, unless input is locked. */
    method OnBrakePressed(input: PlaneInput, value: real) returns (next: PlaneInput)
      ensures lockInput ==> next == input
      ensures !lockInput ==> next == input.(brakePower := value)
    {
      if lockInput {
        return input;
      }
      next := input.(brakePower := value);
    }

    /**
     * Steering: records yaw and pitch, each optionally inverted, and turns the
     * thrust vector by the negated pitch, unless input is locked.
     */
    method OnSteer(input: PlaneInput, x: real, y: real) returns (next: PlaneInput)
      requires thrusters.Valid()
      modifies thrusters
      ensures thrusters.Valid()
      ensures lockInput ==> next == input && unchanged(thrusters)
      ensures !lockInput ==>
        next == input.(yaw := if invertX then -x else x, pitch := if invertY then y else -y)
      ensures !lockInput ==> thrusters.Angle == ScaledAngle(-next.pitch, thrusters.maxAngle)
      ensures !lockInput ==> thrusters.nozzle == Vec3(-next.pitch, 0.0, 0.0)
      ensures !lockInput ==>
        var covers := CoverAngles(thrusters.Angle, thrusters.maxOpening * thrusters.Power);
        && thrusters.topCover == Vec3(covers.top, old(thrusters.topCover.y), old(thrusters.topCover.z))
        && thrusters.bottomCover == Vec3(covers.bottom, old(thrusters.topCover.y), old(thrusters.topCover.z))
      ensures thrusters.Power == old(thrusters.Power)
    {
      if lockInput {
        return input;
      }
      next := input.(yaw := if invertX then -x else x);
      next := next.(pitch := if invertY then y else -y);
      thrusters.SetAngle(-next.pitch);
    }

    /** Roll: records the negated roll input, unless input is locked. */
    method OnRoll(input: PlaneInput, value: real) returns (next: PlaneInput)
      ensures lockInput ==> next == input
      ensures !lockInput ==> next == input.(roll := -value)
    {
      if lockInput {
        return input;
      }
      next := input.(roll := -value);
    }

    /** The wheels toggle on a key press, only while the automatic deploy is off. */
    method OnDeployWheels(value: real)
      modifies this`wheelsDeployed
      ensures wheelsDeployed == if value == 1.0 && !automaticWheelDeploy then !old(wheelsDeployed) else old(wheelsDeployed)
    {
      var pressStart := value == 1.0;
      if !pressStart || automaticWheelDeploy {
        return;
      }
      wheelsDeployed := !wheelsDeployed;
    }

    // ------------------------------------------------------------ checkpoints

    /**
     * Reaching the checkpoint at `index` among its siblings at time `now`.
     * START begins the race and restarts both timers; END ends it and
     * re-activates the first checkpoint; any other restarts the lap timer.
     * Except after END the next sibling is activated; when there is none the
     * engine throws, so `ok` is false and the reached checkpoint stays active.
     * Otherwise the reached checkpoint is deactivated and no other sibling changes.
     */
    method OnReachCheckpoint(siblings: array<Checkpoint>, index: nat, now: real) returns (ok: bool)
      requires index < siblings.Length
      modifies this`inRace, this`totalTimeStart, this`currentTimeStart, siblings
      ensures var name := old(siblings[index].name);
              ok == (name == "END" || index + 1 < siblings.Length)
      ensures var name := old(siblings[index].name);
              && (name == "START" ==> inRace && totalTimeStart == now && currentTimeStart == now)
              && (name == "END" ==>
                    !inRace && totalTimeStart == old(totalTimeStart) && currentTimeStart == old(currentTimeStart))
              && (name != "START" && name != "END" ==>
                   inRace == old(inRace) && totalTimeStart == old(totalTimeStart) && currentTimeStart == now)
      ensures !ok ==> siblings[..] == old(siblings[..])
      ensures var name := old(siblings[index].name);
              var next := ActivatedSibling(name, index);
              ok ==> && next < siblings.Length
                     && siblings[index] == old(siblings[index]).(active := false)
                     && (next != index ==> siblings[next] == old(siblings[next]).(active := true))
                     && forall j :: 0 <= j < siblings.Length && j != index && j != next ==> siblings[j] == old(siblings[j])
    {
      var name := siblings[index].name;
      if name == "END" {
        inRace := false;
        siblings[0] := siblings[0].(active := true);
      } else {
        if name == "START" {
          inRace := true;
          totalTimeStart := now;
        }
        currentTimeStart := now;
        if index + 1 >= siblings.Length {
          return false;
        }
        siblings[index + 1] := siblings[index + 1].(active := true);
      }
      siblings[index] := siblings[index].(active := false);
      ok := true;
    }
  }
}
