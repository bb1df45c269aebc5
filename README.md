# Plane flight simulator core, modelled in Dafny

This project models the deterministic core of a Unity flight demo: the rules
that sit under the engine glue and decide what the plane does with the
pilot's input. It covers:

- the player controller (`Player`, controls.dfy):
  - pilot inputs become target angles for the flaps, ailerons, elevators and rudders;
  - the ailerons level the wings on their own (the auto-level override);
  - the input handlers write the input record, gated by `lockInput`;
  - the wheels follow the ground check or a toggle key;
  - lift is pushed into the body;
  - a race advances over a row of sibling checkpoints.
- the jet thruster (`ThrusterComponent`, thruster.dfy) and its duplicate
  class (`ThrustersComponent`, thrusters.dfy):
  - power is clamped to [0, 1];
  - the vector angle is clamped and scaled;
  - the two nozzle covers open symmetrically around that angle;
  - a loop sets every particle system's emission;
  - a thrust force is pushed every physics tick.
- the aerodynamic surface (`Surface`, surface.dfy):
  - a one-slot position history;
  - a wind-corrected displacement;
  - the normal force `incidence * area * |d|²`;
  - a per-axis mask on the force direction;
  - the resulting force is pushed into the parent body.
- the aerodynamic body (`Body`, body.dfy):
  - the weather record;
  - the velocity read back from the rigid body;
  - the speed ratio and the relative airflow;
  - force forwarding to the rigid body.
- the chase camera (`Camera`, camera.dfy):
  - bounded yaw and pitch look-around offsets that decay back to zero;
  - the rig following the plane;
  - the camera separation growing with speed.

Unity's scalar helpers (`Mathf.Clamp`, `Clamp01`, `Lerp`, `Repeat`,
`LerpAngle`) and C#'s floating-point `%` are defined in `Maths`
(maths.dfy) over exact reals.

How the model stands in for the engine:

- Components whose fields change in place are classes with `modifies`
  clauses. The rules they follow are stated once as functions, and lemmas
  prove their properties.
- The rigid body is abstract: a velocity, and a ghost log of every force
  handed to it, in order. Forwarding a force is stated as "the log grows by
  exactly this entry and the velocity read back does not change".
- The global static records (`PlaneInput`, `CameraInput`, `Meteorology`) are
  datatypes. They are passed in, and the handlers return the updated record.
- Everything the engine measures arrives as a parameter:
  - positions, axes and frame times;
  - euler angles;
  - magnitudes, constrained by `IsMagnitude`;
  - the incidence cosine, as a function parameter;
  - the parent transform, as a `Basis` together with the surface normal in local coordinates;
  - the ground raycast, as a boolean;
  - the clock, as `now`.
- Transform euler angles become `Vec3` fields.
- The camera's yaw and pitch steps are written as two helper methods,
  `StepYaw` and `StepPitch`. The source interleaves their statements. The two
  axes share no state, so the result is the same.

## Model

| member | source | states |
|---|---|---|
| Maths.Clamp | Assets/Scripts/CameraManager.cs:47 | `Mathf.Clamp`: the result lies in [min, max] when min <= max. A value inside is kept, a value below min gives min, and a value above max gives max. |
| Maths.Clamp01 | Assets/Scripts/Thruster.cs:51 | `Mathf.Clamp01`: the result always lies in [0, 1]. It is the value itself inside [0, 1], 0 at or below 0, and 1 at or above 1. |
| Maths.Lerp | Assets/Scripts/CameraManager.cs:57 | `Mathf.Lerp` with its parameter clamped to [0, 1]. Its properties are stated by `LerpBetween`. |
| Maths.LerpBetween | Assets/Scripts/CameraManager.cs:57 | `Lerp` lies between its two ends, in either order. It is the start at t <= 0 and the end at t >= 1. |
| Maths.Repeat | Assets/Scripts/PlayerController.cs:236 | `Mathf.Repeat`, the wrap that `LerpAngle` applies to the difference of two angles. Its properties over a full turn are stated by `RepeatTurn`. |
| Maths.RepeatTurn | Assets/Scripts/PlayerController.cs:236 | Wrapping over a full turn gives a value in [0, 360) that differs from the input by whole turns. |
| Maths.LerpAngle | Assets/Scripts/PlayerController.cs:236 | `Mathf.LerpAngle`: a step along the shorter way round. Its properties are stated by `LerpAngleStep` and `LerpAngleReachesTarget`. |
| Maths.ShortestDelta | Assets/Scripts/PlayerController.cs:236 | The wrap inside `Mathf.LerpAngle`: the difference of two angles, brought to the shorter way round. Its properties are stated by `ShortestDeltaIsShortest`. |
| Maths.ShortestDeltaIsShortest | Assets/Scripts/PlayerController.cs:236 | The step `Mathf.LerpAngle` takes lies in (-180, 180]. It differs from the plain difference by whole turns. |
| Maths.LerpAngleStep | Assets/Scripts/PlayerController.cs:236 | One `LerpAngle` step turns a surface by at most 180 degrees. At t <= 0 the surface stays put. |
| Maths.LerpAngleReachesTarget | Assets/Scripts/PlayerController.cs:236 | At t >= 1, `LerpAngle` lands on the target up to whole turns. |
| Maths.FMod | Assets/Scripts/PlayerController.cs:253 | C#'s `%` on floats, whose quotient is truncated toward zero. Its properties are stated by `FModRange`. |
| Maths.FModRange | Assets/Scripts/PlayerController.cs:253 | For a positive divisor the remainder takes the sign of the dividend and is smaller than the divisor in magnitude. The dividend minus the remainder is a whole multiple of the divisor. |
| Body.InitialMeteorology | Assets/Scripts/AerodynamicObject.cs:11-15 | The weather starts with zero wind and air density 1. |
| Surface.InitialWeatherIsStill | Assets/Scripts/AerodynamicObject.cs:11-15 | In the initial weather the airflow a body faces is its reversed velocity, and the wind-corrected displacement of a surface equals its raw displacement. |
| Body.RigidBody.AddForceAtPosition | Assets/Scripts/AerodynamicObject.cs:63 | The engine records the force, position and mode as one more log entry. The velocity read back does not change until the next simulation step. |
| Body.AerodynamicObject.Start | Assets/Scripts/AerodynamicObject.cs:56-59 | Start binds the rigid body. |
| Body.AerodynamicObject.SpeedPercent | Assets/Scripts/AerodynamicObject.cs:39-45 | The speed ratio is non-negative. Times 40 it gives the speed. It is zero exactly when the velocity is zero. |
| Body.AerodynamicObject.Velocity | Assets/Scripts/AerodynamicObject.cs:30-37 | The `velocity` property reads the rigid body's velocity through. `SetVelocity` states that it reads back the value written, and `FacingAirflow` that the airflow plus the velocity is the wind. |
| Body.AerodynamicObject.FacingAirflow | Assets/Scripts/AerodynamicObject.cs:47-53 | The airflow plus the velocity is the wind. With no wind the airflow is the reversed velocity. |
| Body.AerodynamicObject.SetVelocity | Assets/Scripts/AerodynamicObject.cs:73-76 | The velocity reads back the value set. No force is logged. |
| Body.AerodynamicObject.AddForceAtPosition | Assets/Scripts/AerodynamicObject.cs:61-66 | Force, position and mode reach the rigid body unchanged, as exactly one log entry. |
| Body.AerodynamicObject.AddForceAtPositionDefaultMode | Assets/Scripts/AerodynamicObject.cs:68-71 | The two-argument overload forwards the force in `Force` mode. |
| Surface.BooleanVector3.Vector | Assets/Scripts/AerodynamicSurface.cs:12-18 | Each component is 1 exactly on a flagged axis and 0 otherwise. |
| Surface.BooleanVector3.InverseVector | Assets/Scripts/AerodynamicSurface.cs:20-26 | Each component is 0 or 1. It adds up with `vector` to 1 on every axis. |
| Surface.Mask | Assets/Scripts/AerodynamicSurface.cs:178-182 | A flagged axis's component of the local force direction becomes 0. Every other component is kept unchanged. |
| Surface.ActualDisplacement | Assets/Scripts/AerodynamicSurface.cs:127-128 | The displacement through the air plus the wind's drift over one tick is the raw displacement. With no wind the two are equal. |
| Surface.NormalForce | Assets/Scripts/AerodynamicSurface.cs:164 | The normal force, incidence times area times the squared displacement. Its properties are stated by `NormalForceAtRest`, `NormalForceSign` and `NormalForceBound`. |
| Surface.NormalForceAtRest | Assets/Scripts/AerodynamicSurface.cs:164 | A surface that does not move through the air feels no normal force. |
| Surface.NormalForceSign | Assets/Scripts/AerodynamicSurface.cs:164 | With a positive area and a surface that moves through the air, the normal force is positive exactly when the incidence is, and negative exactly when it is. |
| Surface.NormalForceBound | Assets/Scripts/AerodynamicSurface.cs:164 | With an incidence cosine in [-1, 1] and a non-negative area, the normal force is at most area times the squared speed, in magnitude. |
| Surface.Basis.TransformVector | Assets/Scripts/AerodynamicSurface.cs:184 | `Transform.TransformVector`: local coordinates as a combination of the frame's three axes. It maps the zero vector to zero, as `ForceOverObjectVanishes` uses, and the surfaces require it to map the local normal back onto the world normal, which `ForceOverObjectAlongNormal` uses. |
| Surface.ForceOverObject | Assets/Scripts/AerodynamicSurface.cs:175-185 | The force a surface pushes into its body: the masked normal, scaled by default force, multiplier and normal force. Its properties are stated by `ForceOverObjectUnmasked`, `ForceOverObjectAlongNormal` and `ForceOverObjectVanishes`. |
| Surface.ForceOverObjectUnmasked | Assets/Scripts/AerodynamicSurface.cs:177-185 | With no axis masked, the whole surface normal goes into the body, scaled by default force, multiplier and normal force. |
| Surface.ForceOverObjectAlongNormal | Assets/Scripts/AerodynamicSurface.cs:175-185 | When the parent frame maps the local normal back onto the surface normal, the unmasked force is the surface normal scaled by default force, multiplier and normal force. |
| Surface.ForceOverObjectVanishes | Assets/Scripts/AerodynamicSurface.cs:178-185 | With every axis masked, or with a zero normal force, the force is zero. |
| Surface.AerodynamicSurface.constructor | Assets/Scripts/AerodynamicSurface.cs:37-51 | The inspector settings are taken, and the private fields hold their defaults. |
| Surface.AerodynamicSurface.OnEnable | Assets/Scripts/AerodynamicSurface.cs:73-76 | Enabling restarts the history at the current position. |
| Surface.AerodynamicSurface.Start | Assets/Scripts/AerodynamicSurface.cs:78-84 | Start gives zero displacement, the history at the current position, and the area as width times height. |
| Surface.AerodynamicSurface.GetNormalForce | Assets/Scripts/AerodynamicSurface.cs:125-166 | The normal force of the wind-corrected displacement, with the incidence of the reversed displacement on the normal. Its properties are those of `ActualDisplacement` and `NormalForce`: no force at rest through the air, and at most area times squared speed. |
| Surface.AerodynamicSurface.ApplyForceOverObject | Assets/Scripts/AerodynamicSurface.cs:173-188 | Exactly one force goes into the parent: the masked, scaled normal, in `VelocityChange` mode at the surface position. The parent's velocity is unchanged. |
| Surface.AerodynamicSurface.TickWithParent | Assets/Scripts/AerodynamicSurface.cs:106-111 | The displacement is measured against the previous position, and the normal force of that displacement is pushed once, along the surface normal that the parent frame maps the local normal onto. Then the history moves on to the current position. |
| Surface.AerodynamicSurface.FixedUpdate | Assets/Scripts/AerodynamicSurface.cs:101-112 | Without a parent, nothing changes. With one, the tick does what `TickWithParent` states, for a parent frame consistent with the surface normal. |
| ThrusterComponent.ScaledAngle | Assets/Scripts/Thruster.cs:35-36 | The stored vector angle: the request clamped to [-1, 1], times the maximum angle. Its properties are stated by `ScaledAngleBound` and `ReappliedAngleSaturates`. |
| ThrusterComponent.ScaledAngleBound | Assets/Scripts/Thruster.cs:35-36 | The stored angle is never larger than the maximum angle in magnitude. A request at or beyond full deflection gives exactly plus or minus the maximum. |
| ThrusterComponent.ReappliedAngleSaturates | Assets/Scripts/Thruster.cs:68 | Re-scaling an already scaled angle, as `SetPower` does, gives the full maximum whenever the stored angle is at least one degree, and the full negative maximum whenever it is at most minus one degree. |
| ThrusterComponent.CoverAngles | Assets/Scripts/Thruster.cs:40-42 | The covers stay centred on the vector angle and are twice the opening apart. At zero opening both sit on the angle. |
| ThrusterComponent.Emission | Assets/Scripts/Thruster.cs:54-66 | A particle system plays exactly at non-zero power. |
| ThrusterComponent.EmissionIdle | Assets/Scripts/Thruster.cs:57-62 | At zero power the rate is 0 and the system is stopped. |
| ThrusterComponent.ThrustForce | Assets/Scripts/Thruster.cs:26 | The thrust: power times thrust force along the nozzle's forward axis. Its properties are stated by `ThrustProportional`, `ThrustWithinFullPower` and `ThrustIdle`. |
| ThrusterComponent.ThrustProportional | Assets/Scripts/Thruster.cs:26 | The thrust at any power is the full-power thrust scaled by that power. |
| ThrusterComponent.ThrustWithinFullPower | Assets/Scripts/Thruster.cs:26 | At power in [0, 1], every component of the thrust is at most the full-power thrust's component in magnitude. |
| ThrusterComponent.ThrustIdle | Assets/Scripts/Thruster.cs:26 | At zero power the thrust is zero. |
| ThrusterComponent.Thruster.constructor | Assets/Scripts/Thruster.cs:6-22 | A new thruster has power and angle 0, so the class invariant holds from the start. |
| ThrusterComponent.Thruster.FixedUpdate | Assets/Scripts/Thruster.cs:24-27 | Exactly one force goes into the body: power times thrust force along the nozzle, in `Acceleration` mode. |
| ThrusterComponent.Thruster.SetAngle | Assets/Scripts/Thruster.cs:33-43 | The stored angle is the clamped request scaled by the maximum angle. The nozzle turns by the raw request. Both covers get `CoverAngles` of the stored angle and the opening, and keep the top cover's y and z. The power bound and angle bound are preserved. |
| ThrusterComponent.Thruster.SetAngleToCurrent | Assets/Scripts/Thruster.cs:32 | `SetAngle` is re-applied to the stored angle: the stored angle is scaled again, and the nozzle is set to the old stored angle. |
| ThrusterComponent.Thruster.SetPower | Assets/Scripts/Thruster.cs:49-69 | Power becomes the request clamped to [0, 1]. Every particle system gets the emission for that power. Then the angle is re-scaled and the covers reopen. |
| ThrustersComponent.Thrusters.constructor | Assets/Scripts/Thrusters.cs:6-22 | As for `Thruster`: power and angle start at 0. |
| ThrustersComponent.Thrusters.FixedUpdate | Assets/Scripts/Thrusters.cs:24-27 | Exactly one thrust force, power times thrust force along the nozzle, in `Acceleration` mode. |
| ThrustersComponent.Thrusters.SetAngle | Assets/Scripts/Thrusters.cs:30-40 | Same contract as `Thruster.SetAngle`: clamped, scaled stored angle, raw nozzle angle, and symmetric covers. |
| ThrustersComponent.Thrusters.SetAngleToCurrent | Assets/Scripts/Thrusters.cs:29 | `SetAngle` is re-applied to the already scaled stored angle. |
| ThrustersComponent.Thrusters.SetPower | Assets/Scripts/Thrusters.cs:42-62 | Clamped power, the emission of every particle system, then the angle is re-scaled. |
| Player.FlapTarget | Assets/Scripts/PlayerController.cs:235 | The flap target from pitch and brake. Its properties are stated by `FlapTargetParts`. |
| Player.FlapTargetParts | Assets/Scripts/PlayerController.cs:235 | The flap target splits into a pitch part, odd in the pitch input, and a brake part that lowers it by the extra pitch per unit of brake. |
| Player.Horizontal | Assets/Scripts/PlayerController.cs:251-253 | The level test of the auto-level, on the shifted bank modulo 180. Its meaning for read-back bank angles is stated by `HorizontalBand`. |
| Player.HorizontalBand | Assets/Scripts/PlayerController.cs:251-253 | For a bank angle in [0, 360), the plane counts as level exactly in [0, 6), [174, 186) and [354, 360). |
| Player.AutoLevels | Assets/Scripts/PlayerController.cs:250-255 | The auto-level's trigger: no roll or yaw input, a banked plane, and the check enabled. `AileronTargetRule` states when it holds for read-back bank angles, using `HorizontalBand`. |
| Player.TurnsRight | Assets/Scripts/PlayerController.cs:258-259 | The side the auto-level banks toward. Its meaning is stated by `AileronTargetRule`: negative command exactly in (0, 115) and (180, 245). |
| Player.AileronTarget | Assets/Scripts/PlayerController.cs:248-261 | The aileron target, from the roll input or the auto-level. Its properties are stated by `AileronTargetRule`. |
| Player.AileronTargetRule | Assets/Scripts/PlayerController.cs:248-261 | The auto-level fires exactly when roll and yaw are 0, the check is on and the bank is outside the level bands. It commands plus or minus a third of the maximum pitch, negative exactly in (0, 115) and (180, 245). Otherwise the aileron follows the roll input. |
| Player.ElevatorTargets | Assets/Scripts/PlayerController.cs:276-280 | The two elevator targets from pitch and yaw. Their properties are stated by `ElevatorSumAndDifference`. |
| Player.ElevatorSumAndDifference | Assets/Scripts/PlayerController.cs:276-280 | Left plus right elevator is twice the pitch command, and left minus right is twice the turn command. |
| Player.RudderTargets | Assets/Scripts/PlayerController.cs:291-297 | The two rudder targets from yaw, with the outer percentage on one side. Their properties are stated by `RudderOuterShare`. |
| Player.RudderOuterShare | Assets/Scripts/PlayerController.cs:291-297 | Yawing right, the right rudder takes the full angle and the left one the outer percentage of it. Yawing left, the reverse. With no yaw both are centred. |
| Player.Applied | Assets/Scripts/PlayerController.cs:236 | The angle written to a surface: the target, or one `LerpAngle` step toward it. Its properties are stated by `AppliedApproachesTarget`. |
| Player.AppliedApproachesTarget | Assets/Scripts/PlayerController.cs:236 | Without smoothing the target is written at once. With smoothing a step turns at most half a turn, and at t >= 1 it lands on the target up to whole turns. |
| Player.Lift | Assets/Scripts/PlayerController.cs:311 | The lift vector: the up axis scaled by lift force, speed ratio and angle factor. Its properties are stated by `LiftAlongUp`. |
| Player.LiftAlongUp | Assets/Scripts/PlayerController.cs:311 | With an angle factor in [-1, 1], the lift is a multiple of the up axis no larger in magnitude than the lift force times the speed ratio, whatever the sign of the lift force. A plane at rest gets none. |
| Player.PlayerController.constructor | Assets/Scripts/PlayerController.cs:60-110 | The inspector settings and the starting angles of the eight surfaces are taken. Input, wheels and race state hold their defaults. |
| Player.PlayerController.Start | Assets/Scripts/PlayerController.cs:116-126 | Start sets the wheels down, unlocks input, and leaves the race not started. |
| Player.PlayerController.MoveFlaps | Assets/Scripts/PlayerController.cs:233-240 | Both flaps get the same angle, the applied flap target, and keep their own x and y. |
| Player.PlayerController.MoveAilerons | Assets/Scripts/PlayerController.cs:246-268 | The right aileron gets the applied aileron target and the left one its negation, including under the auto-level. |
| Player.PlayerController.MoveElevators | Assets/Scripts/PlayerController.cs:274-283 | Each elevator gets its own applied target, starting from its own current angle. |
| Player.PlayerController.MoveRudders | Assets/Scripts/PlayerController.cs:289-300 | Each rudder gets its own applied target, with the outer percentage on the outer side of the turn. |
| Player.PlayerController.Update | Assets/Scripts/PlayerController.cs:128-136 | One frame moves all four surface pairs as their `Move*` methods state. |
| Player.PlayerController.ApplyLift | Assets/Scripts/PlayerController.cs:308-312 | Exactly one lift force goes into the body, in `Acceleration` mode. |
| Player.PlayerController.CheckWheels | Assets/Scripts/PlayerController.cs:317-326 | The wheels are down exactly when the ground check finds terrain. |
| Player.PlayerController.FixedUpdate | Assets/Scripts/PlayerController.cs:138-147 | Lift is applied. The wheels follow the ground check only when automatic deploy is on. |
| Player.PlayerController.OnThrottlePressed | Assets/Scripts/PlayerController.cs:182-188 | Locked: nothing changes. Otherwise the thruster power is recorded, and the thruster's power and particles are set as `SetPower` states. The angle is re-scaled, the nozzle turns to the old stored angle, and both covers reopen to `CoverAngles` of the new angle and opening. |
| Player.PlayerController.OnBrakePressed | Assets/Scripts/PlayerController.cs:190-195 | Locked: nothing changes. Otherwise the brake power is recorded. |
| Player.PlayerController.OnSteer | Assets/Scripts/PlayerController.cs:197-207 | Locked: nothing changes. Otherwise yaw is `invertX ? -x : x` and pitch is `invertY ? y : -y`. The thrust vector turns to the negated pitch, the covers reopen around the new angle, and the power is kept. |
| Player.PlayerController.OnRoll | Assets/Scripts/PlayerController.cs:209-214 | Locked: nothing changes. Otherwise roll is the negated input. |
| Player.PlayerController.OnDeployWheels | Assets/Scripts/PlayerController.cs:216-223 | The wheels toggle exactly on a press with automatic deploy off. |
| Player.ActivatedSibling | Assets/Scripts/PlayerController.cs:371-379 | The sibling a reached checkpoint activates: the first one after END, otherwise the next one. `OnReachCheckpoint` states that exactly this sibling is activated when it exists. |
| Player.PlayerController.OnReachCheckpoint | Assets/Scripts/PlayerController.cs:362-384 | START starts the race and both timers. END stops the race and reactivates the first checkpoint. Any other checkpoint restarts the lap timer. Except after END the next sibling is activated; with none, `ok` is false and no checkpoint changes. Otherwise the reached checkpoint is deactivated and every other sibling is unchanged. |
| Camera.OffsetStep | Assets/Scripts/CameraManager.cs:46-60 | One tick of a look-around offset: add the input, clamp, and decay when the stick is released. Its properties are stated by `OffsetStepBounded`. |
| Camera.OffsetStepBounded | Assets/Scripts/CameraManager.cs:46-60 | After a tick an offset lies in [-max, max]. With the stick released it shrinks toward zero without crossing it. |
| Camera.Separation | Assets/Scripts/CameraManager.cs:75 | The camera separation for a speed ratio. Its properties are stated by `SeparationRange`. |
| Camera.SeparationRange | Assets/Scripts/CameraManager.cs:75 | The separation is the minimum at rest and the maximum at the reference speed. In between it stays between the two. |
| Camera.CameraManager.constructor | Assets/Scripts/CameraManager.cs:13-31 | The inspector settings are taken, and both offsets start at 0. |
| Camera.CameraManager.Start | Assets/Scripts/CameraManager.cs:33-40 | Start stores the offset from the target, so the target plus the offset is the rig position, and centres the view. |
| Camera.CameraManager.StepYaw | Assets/Scripts/CameraManager.cs:46-57 | The yaw offset takes one `OffsetStep` and stays within [-maxX, maxX]. |
| Camera.CameraManager.StepPitch | Assets/Scripts/CameraManager.cs:50-60 | The pitch offset takes one `OffsetStep` and stays within [-maxY, maxY]. |
| Camera.CameraManager.FixedUpdate | Assets/Scripts/CameraManager.cs:43-77 | Both offsets step with decay rate speed over return slowness and stay in bounds. The rig moves to the target plus the stored offset. The cameras move to the separation for the speed ratio. |
| Camera.CameraManager.OnCameraRotate | Assets/Scripts/CameraManager.cs:79-85 | The camera input records X as read and Y inverted. |

## Left out

- Camera.CameraManager.FixedUpdate: requires `returnSlowness > 0`, because with 0 the source divides by zero and gets an IEEE infinity or NaN, which reals do not model. The source allows `returnSlowness == 0`: at zero speed the step is 0/0, a NaN that `Clamp01` and `Clamp` pass through, so the offset becomes NaN and leaves its bounds. The offset bound therefore holds only under the required `returnSlowness > 0`.
- Camera.CameraManager.constructor: requires `returnSlowness > 0` for the same reason, and `maxX, maxY >= 0`, as the inspector's `Min(0)` enforces. With `returnSlowness == 0`, which the source allows, a NaN offset would break the offset bound of `Valid`, so that invariant holds only under the required `returnSlowness > 0`.
- Surface.AerodynamicSurface.TickWithParent: requires the parent frame to map the local normal back onto the surface normal. In the engine this holds because the local normal is the inverse transform of that same normal.
- Surface.AerodynamicSurface.FixedUpdate: requires the same consistency of parent frame and normal, for the same reason.
- Camera rotation (Assets/Scripts/CameraManager.cs:66-72): quaternion `Euler` and `Lerp` are engine maths; the rig's rotation and the `smoothness` setting are not modelled.
- Engine maths are parameters, not computed. This covers `Vector3.magnitude` (constrained by `IsMagnitude`), `Mathf.Cos` with `Vector3.Angle` (the incidence and the lift's angle factor), and `Transform.TransformVector` and `InverseTransformVector` (a `Basis` and the local normal).
- The normal force uses the squared length of the displacement. The source squares the engine's magnitude, which is equal on reals.
- Floating-point rounding: every quantity is a real, and every comparison is exact.
- Unity's euler-angle readback normalisation into [0, 360): the model reads back the value written. The auto-level lemmas are stated for bank angles in [0, 360), which is what the engine reads back.
- `Mathf.LerpAngle` is defined exactly, but its properties are proved only up to whole turns of 360 degrees.
- Collisions and trigger dispatch (Assets/Scripts/PlayerController.cs:149-174): engine callbacks. The checkpoint rule they call is modelled.
- CrashManager.cs, Overlay.cs, UI/AttackAngleChart.cs, PhysicalSurface.cs and PhysicalObject.cs are not part of this model. They are a coroutine, UI widgets, and an earlier version whose force is discarded.
- `UpdateUI` and the chronometer text (Assets/Scripts/PlayerController.cs:331-356), the animator's wheel flag, the cursor lock, `Debug.DrawLine`, the sprite colours, the details text and the `displaySurfacesDuringPlaymode` visuals are presentation only.
- Particle `Play`/`Stop` internals: each particle system is recorded as its emission rate and a playing flag.
- The ground raycast in `CheckWheels` is its boolean result, `terrainBelow`; `deployAtHeight` and the layer mask are not modelled.
- The rigid body's own integration of forces is not modelled. The rigid body keeps a velocity and a log of applied forces.
- `Meteorology.AirDensity` is set but never read by the core, so the model only carries it.
- Player.PlayerController.OnReachCheckpoint: `GetChild(index + 1)` past the last sibling throws in the engine. The model returns `ok == false` with the state changes made before the throw: `inRace`, the timers, and no checkpoint activated or deactivated.
- Player.PlayerController.OnThrottlePressed: the thruster's invariant (power in [0, 1], angle within the maximum) is required of the caller. The constructor establishes it, and every thruster method preserves it.
- Player.PlayerController.OnSteer: the thruster's invariant is required of the caller in the same way. The constructor establishes it, and every thruster method preserves it.
