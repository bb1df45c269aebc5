/**
 * The aerodynamic body: the component that owns the plane's rigid body, reads
 * back its velocity, derives the relative airflow and the speed ratio from it,
 * and forwards every force the other components produce.
 *
 * The rigid body itself belongs to the physics engine. It is kept abstract: a
 * velocity that the engine integrates between ticks, and a ghost log of the
 * forces handed to it, in the order they were applied.
 */
module Body {
  import opened Maths

  /**
   * The global weather record: the wind velocity and the air density, both
   * read by every surface on every tick.
   */
  datatype Meteorology = Meteorology(windVelocity: Vec3, airDensity: real)

  /** The weather the static initialiser sets up: still air of unit density. */
  function InitialMeteorology(): (m: Meteorology)
    ensures m.windVelocity == Zero
    ensures m.airDensity == 1.0
  {
    Meteorology(Vec3(0.0, 0.0, 0.0), 1.0)
  }

  /** The engine's ForceMode: how a force is turned into a change of velocity. */
  datatype ForceMode = Force | Acceleration | VelocityChange

  /** One call of the rigid body's AddForceAtPosition. */
  datatype AppliedForce = AppliedForce(force: Vec3, position: Vec3, mode: ForceMode)

  /** The speed, in world units per second, that the speed ratio calls 100%. */
  const ReferenceSpeed: real := 40.0

  class RigidBody {
    var velocity: Vec3
    /** Every force handed to the engine, oldest first. */
    ghost var log: seq<AppliedForce>

    constructor (velocity: Vec3)
      ensures this.velocity == velocity && log == []
    {
      this.velocity := velocity;
      log := [];
    }

    /**
     * Hands a force to the engine. The engine applies it during its next
     * simulation step, so the velocity read back is unchanged until then.
     */
    method AddForceAtPosition(force: Vec3, position: Vec3, mode: ForceMode)
      modifies this
      ensures velocity == old(velocity)
      ensures log == old(log) + [AppliedForce(force, position, mode)]
    {
      log := log + [AppliedForce(force, position, mode)];
    }
  }

  class AerodynamicObject {
    /** The scale every surface applies to the forces it produces. */
    const defaultForce: real
    /** The rigid body fetched from the same game object when the component starts. */
    const rigidbody: RigidBody

    /** The component's Start: binds the rigid body. */
    constructor Start(rigidbody: RigidBody, defaultForce: real)
      ensures this.rigidbody == rigidbody && this.defaultForce == defaultForce
    {
      this.rigidbody := rigidbody;
      this.defaultForce := defaultForce;
    }

    /** The `velocity` property: the rigid body's velocity, read through. */
    function Velocity(): Vec3
      reads this, rigidbody
    {
      rigidbody.velocity
    }

    /**
     * The speed as a fraction of the reference speed. `speed` is the
     * magnitude the engine computes for the velocity.
     */
    function SpeedPercent(speed: real): (r: real)
      reads this, rigidbody
      requires IsMagnitude(Velocity(), speed)
      ensures r >= 0.0
      ensures r * ReferenceSpeed == speed
      ensures r == 0.0 <==> Velocity() == Zero
    {
      speed / ReferenceSpeed
    }

    /**
     * The air the body faces: its own motion reversed, plus the wind. With
     * the wind added back, airflow and velocity cancel out.
     */
    function FacingAirflow(weather: Meteorology): (r: Vec3)
      reads this, rigidbody
      ensures Add(r, Velocity()) == weather.windVelocity
      ensures weather.windVelocity == Zero ==> r == Neg(Velocity())
    {
      Add(Neg(rigidbody.velocity), weather.windVelocity)
    }

    /** Overwrites the rigid body's velocity; the force log is untouched. */
    method SetVelocity(velocity: Vec3)
      modifies rigidbody
      ensures Velocity() == velocity
      ensures rigidbody.log == old(rigidbody.log)
    {
      rigidbody.velocity := velocity;
    }

    /** Forwards a force to the rigid body unchanged. */
    method AddForceAtPosition(force: Vec3, position: Vec3, mode: ForceMode)
      modifies rigidbody
      ensures Velocity() == old(Velocity())
      ensures rigidbody.log == old(rigidbody.log) + [AppliedForce(force, position, mode)]
    {
      rigidbody.AddForceAtPosition(force, position, mode);
    }

    /** The two-argument overload: forwards the force in the default Force mode. */
    method AddForceAtPositionDefaultMode(force: Vec3, position: Vec3)
      modifies rigidbody
      ensures Velocity() == old(Velocity())
      ensures rigidbody.log == old(rigidbody.log) + [AppliedForce(force, position, Force)]
    {
      AddForceAtPosition(force, position, Force);
    }
  }
}
