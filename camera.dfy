/**
 * The chase camera: it follows the plane at a fixed offset, lets the player
 * look around by a bounded yaw and pitch offset that drifts back to zero
 * once the stick is released (faster at higher speed), and pulls back from
 * the plane as it speeds up.
 *
 * The camera input record is a value returned by the input handler and
 * passed to the tick. The engine's readings (the target's position, the
 * speed, the frame time) arrive as parameters.
 */
module Camera {
  import opened Maths
  import opened Player

  /** The player's camera stick: X and Y in [-1, 1]. */
  datatype CameraInput = CameraInput(x: real, y: real)

  /**
   * One tick of a look-around offset on one axis: the stick moves it by
   * time times sensitivity, it is clamped to [-max, max], and with the stick
   * released it is interpolated toward zero by time times the decay rate.
   */
  function OffsetStep(offset: real, deltaTime: real, sensitivity: real, axisInput: real,
                      max: real, decayRate: real): real
  {
    var moved := Clamp(offset + deltaTime * sensitivity * axisInput, -max, max);
    if axisInput == 0.0 then Lerp(moved, 0.0, deltaTime * decayRate) else moved
  }

  /**
   * An offset never leaves [-max, max] after a tick; with the stick released
   * it only shrinks toward zero, never crossing it.
   */
  lemma OffsetStepBounded(offset: real, deltaTime: real, sensitivity: real, axisInput: real,
                          max: real, decayRate: real)
    requires max >= 0.0
    ensures var r := OffsetStep(offset, deltaTime, sensitivity, axisInput, max, decayRate);
            -max <= r <= max
    ensures var r := OffsetStep(offset, deltaTime, sensitivity, axisInput, max, decayRate);
            var held := Clamp(offset, -max, max);
            axisInput == 0.0 ==> (held >= 0.0 ==> 0.0 <= r <= held) && (held <= 0.0 ==> held <= r <= 0.0)
  {
    var moved := Clamp(offset + deltaTime * sensitivity * axisInput, -max, max);
    if axisInput == 0.0 {
      assert deltaTime * sensitivity * axisInput == 0.0;
      assert moved == Clamp(offset, -max, max);
      LerpBetween(moved, 0.0, deltaTime * decayRate);
    }
  }

  /** The distance from the camera rig to the cameras, linear in the speed ratio. */
  function Separation(minSeparation: real, maxSeparation: real, speedPercent: real): real {
    minSeparation + speedPercent * (maxSeparation - minSeparation)
  }

  /**
   * At rest the cameras sit at the minimum separation, at the reference speed
   * at the maximum, and in between they stay between the two.
   */
  lemma SeparationRange(minSeparation: real, maxSeparation: real, speedPercent: real)
    ensures speedPercent == 0.0 ==> Separation(minSeparation, maxSeparation, speedPercent) == minSeparation
    ensures speedPercent == 1.0 ==> Separation(minSeparation, maxSeparation, speedPercent) == maxSeparation
    ensures 0.0 <= speedPercent <= 1.0 && minSeparation <= maxSeparation ==>
      minSeparation <= Separation(minSeparation, maxSeparation, speedPercent) <= maxSeparation
    ensures 0.0 <= speedPercent <= 1.0 && maxSeparation <= minSeparation ==>
      maxSeparation <= Separation(minSeparation, maxSeparation, speedPercent) <= minSeparation
  {
    var d := maxSeparation - minSeparation;
    assert Separation(minSeparation, maxSeparation, speedPercent) == minSeparation + d * speedPercent;
    if 0.0 <= speedPercent <= 1.0 {
      ScaleWithin(d, speedPercent);
    }
  }

  class CameraManager {
    /** The plane to follow. */
    const target: PlayerController
    const maxX: real
    const sensX: real
    const maxY: real
    const sensY: real
    const returnSlowness: real
    const minSeparation: real
    const maxSeparation: real

    var positionOffset: Vec3
    var yawOffset: real
    var pitchOffset: real
    /** The camera rig's world position. */
    var position: Vec3
    /** The local position of the cameras under the rig. */
    var camerasLocal: Vec3

    /** The offsets stay within their configured bounds. */
    ghost predicate Valid()
      reads this
    {
      && maxX >= 0.0 && maxY >= 0.0 && returnSlowness > 0.0
      && -maxX <= yawOffset <= maxX
      && -maxY <= pitchOffset <= maxY
    }

    /** A new component: the inspector settings, zero offsets, and the rig where it was placed. */
    constructor (target: PlayerController, maxX: real, sensX: real, maxY: real, sensY: real,
                 returnSlowness: real, minSeparation: real, maxSeparation: real,
                 position: Vec3, camerasLocal: Vec3)
      requires maxX >= 0.0 && maxY >= 0.0 && returnSlowness > 0.0
      ensures Valid()
      ensures this.target == target && this.maxX == maxX && this.sensX == sensX
      ensures this.maxY == maxY && this.sensY == sensY && this.returnSlowness == returnSlowness
      ensures this.minSeparation == minSeparation && this.maxSeparation == maxSeparation
      ensures positionOffset == Zero && yawOffset == 0.0 && pitchOffset == 0.0
      ensures this.position == position && this.camerasLocal == camerasLocal
    {
      this.target := target;
      this.maxX := maxX;
      this.sensX := sensX;
      this.maxY := maxY;
      this.sensY := sensY;
      this.returnSlowness := returnSlowness;
      this.minSeparation := minSeparation;
      this.maxSeparation := maxSeparation;
      positionOffset := Zero;
      yawOffset := 0.0;
      pitchOffset := 0.0;
      this.position := position;
      this.camerasLocal := camerasLocal;
    }

    /** Start: remembers the offset to the target and centres the view. */
    method Start(targetPosition: Vec3)
      requires Valid()
      modifies this`positionOffset, this`yawOffset, this`pitchOffset
      ensures Valid()
      ensures positionOffset == Sub(position, targetPosition)
      ensures Add(targetPosition, positionOffset) == position
      ensures yawOffset == 0.0 && pitchOffset == 0.0
    {
      positionOffset := Sub(position, targetPosition);
      yawOffset := 0.0;
      pitchOffset := 0.0;
    }

    /** The yaw part of a tick: moved by the stick, clamped, decayed while released. */
    method StepYaw(inputX: real, deltaTime: real, lerp: real)
      requires Valid()
      modifies this`yawOffset
      ensures Valid()
      ensures yawOffset == OffsetStep(old(yawOffset), deltaTime, sensX, inputX, maxX, lerp)
    {
      ghost var yaw0 := yawOffset;
      yawOffset := yawOffset + deltaTime * sensX * inputX;
      yawOffset := Clamp(yawOffset, -maxX, maxX);
      if inputX == 0.0 {
        yawOffset := Lerp(yawOffset, 0.0, deltaTime * lerp);
      }
      assert yawOffset == OffsetStep(yaw0, deltaTime, sensX, inputX, maxX, lerp);
      OffsetStepBounded(yaw0, deltaTime, sensX, inputX, maxX, lerp);
    }

    /** The pitch part of a tick: moved by the stick, clamped, decayed while released. */
    method StepPitch(inputY: real, deltaTime: real, lerp: real)
      requires Valid()
      modifies this`pitchOffset
      ensures Valid()
      ensures pitchOffset == OffsetStep(old(pitchOffset), deltaTime, sensY, inputY, maxY, lerp)
    {
      ghost var pitch0 := pitchOffset;
      pitchOffset := pitchOffset + deltaTime * sensY * inputY;
      pitchOffset := Clamp(pitchOffset, -maxY, maxY);
      if inputY == 0.0 {
        pitchOffset := Lerp(pitchOffset, 0.0, deltaTime * lerp);
      }
      assert pitchOffset == OffsetStep(pitch0, deltaTime, sensY, inputY, maxY, lerp);
      OffsetStepBounded(pitch0, deltaTime, sensY, inputY, maxY, lerp);
    }

    /**
     * One physics tick. `speed` is the engine's magnitude of the target's
     * velocity. Both offsets take one OffsetStep with decay rate speed over
     * return slowness, the rig moves to the target plus the stored offset,
     * and the cameras move to the separation for the target's speed ratio.
     */
    method FixedUpdate(input: CameraInput, deltaTime: real, targetPosition: Vec3, speed: real)
      requires Valid()
      requires IsMagnitude(target.physics.Velocity(), speed)
      modifies this`yawOffset, this`pitchOffset, this`position, this`camerasLocal
      ensures Valid()
      ensures yawOffset == OffsetStep(old(yawOffset), deltaTime, sensX, input.x, maxX, speed / returnSlowness)
      ensures pitchOffset == OffsetStep(old(pitchOffset), deltaTime, sensY, input.y, maxY, speed / returnSlowness)
      ensures position == Add(targetPosition, positionOffset)
      ensures camerasLocal ==
        old(camerasLocal).(z := Separation(minSeparation, maxSeparation, old(target.physics.SpeedPercent(speed))))
    {
      var speedPercent := target.physics.SpeedPercent(speed);
      var lerp := speed / returnSlowness;
      StepYaw(input.x, deltaTime, lerp);
      StepPitch(input.y, deltaTime, lerp);

      position := Add(targetPosition, positionOffset);

      var separation := Separation(minSeparation, maxSeparation, speedPercent);
      camerasLocal := Vec3(camerasLocal.x, camerasLocal.y, separation);
    }

    /** The camera stick handler: X as read, Y inverted. */
    method OnCameraRotate(x: real, y: real) returns (input: CameraInput)
      ensures input.x == x && input.y == -y
    {
      input := CameraInput(x, -y);
    }
  }
}
