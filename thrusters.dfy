/**
 * The Thrusters component: a second copy of the jet thruster, with the same
 * fields and the same behaviour. It is proved against the rules the
 * Thruster component states (clamped power, scaled vector angle, cover
 * opening, emission and thrust).
 */
module ThrustersComponent {
  import opened Maths
  import opened Body
  import opened ThrusterComponent

  class Thrusters {
    const thrustForce: real
    const maxOpening: real
    const maxAngle: real
    const maxParticles: real
    /** The body the thrust is pushed into. */
    const parent: AerodynamicObject
    /** The particle systems under the nozzle. */
    const particles: array<ParticleState>

    /** Throttle level in [0, 1]. */
    var Power: real
    /** Vector angle in degrees. */
    var Angle: real
    /** The local euler angles of the nozzle (the particles' parent). */
    var nozzle: Vec3
    /** The local euler angles of the two covers. */
    var topCover: Vec3
    var bottomCover: Vec3

    ghost predicate Valid()
      reads this
    {
      && 0.0 <= Power <= 1.0
      && Abs(Angle) <= Abs(maxAngle)
    }

    /** A new component: power and angle hold the engine's default of zero. */
    constructor (thrustForce: real, maxOpening: real, maxAngle: real, maxParticles: real,
                 parent: AerodynamicObject, particles: array<ParticleState>,
                 nozzle: Vec3, topCover: Vec3, bottomCover: Vec3)
      ensures Valid()
      ensures this.thrustForce == thrustForce && this.maxOpening == maxOpening
      ensures this.maxAngle == maxAngle && this.maxParticles == maxParticles
      ensures this.parent == parent && this.particles == particles
      ensures Power == 0.0 && Angle == 0.0
      ensures this.nozzle == nozzle && this.topCover == topCover && this.bottomCover == bottomCover
    {
      this.thrustForce := thrustForce;
      this.maxOpening := maxOpening;
      this.maxAngle := maxAngle;
      this.maxParticles := maxParticles;
      this.parent := parent;
      this.particles := particles;
      Power := 0.0;
      Angle := 0.0;
      this.nozzle := nozzle;
      this.topCover := topCover;
      this.bottomCover := bottomCover;
    }

    /** Pushes the thrust into the body as an acceleration. */
    method FixedUpdate(forward: Vec3, position: Vec3)
      modifies parent.rigidbody
      ensures parent.Velocity() == old(parent.Velocity())
      ensures parent.rigidbody.log ==
        old(parent.rigidbody.log) + [AppliedForce(ThrustForce(Power, thrustForce, forward), position, Acceleration)]
    {
      parent.AddForceAtPosition(ThrustForce(Power, thrustForce, forward), position, Acceleration);
    }

    /**
     * Sets the vector angle. The nozzle is turned by the raw request, while
     * the stored angle and the covers use the clamped, scaled one; both covers
     * keep the top cover's y and z angles.
     */
    method SetAngle(angle: real)
      requires Valid()
      modifies this`Angle, this`nozzle, this`topCover, this`bottomCover
      ensures Valid()
      ensures Angle == ScaledAngle(angle, maxAngle)
      ensures nozzle == Vec3(angle, 0.0, 0.0)
      ensures topCover == Vec3(CoverAngles(Angle, maxOpening * Power).top, old(topCover.y), old(topCover.z))
      ensures bottomCover == Vec3(CoverAngles(Angle, maxOpening * Power).bottom, old(topCover.y), old(topCover.z))
    {
      Angle := Clamp(angle, -1.0, 1.0);
      Angle := Angle * maxAngle;
      assert Angle == ScaledAngle(angle, maxAngle);
      ScaledAngleBound(angle, maxAngle);

      nozzle := Vec3(angle, 0.0, 0.0);

      var opening := maxOpening * Power;
      topCover := Vec3(Angle - opening, topCover.y, topCover.z);
      bottomCover := Vec3(Angle + opening, topCover.y, topCover.z);
    }

    /** The argument-less SetAngle: re-applies SetAngle to the stored, already scaled, angle. */
    method SetAngleToCurrent()
      requires Valid()
      modifies this`Angle, this`nozzle, this`topCover, this`bottomCover
      ensures Valid()
      ensures Angle == ScaledAngle(old(Angle), maxAngle)
      ensures nozzle == Vec3(old(Angle), 0.0, 0.0)
      ensures topCover == Vec3(CoverAngles(Angle, maxOpening * Power).top, old(topCover.y), old(topCover.z))
      ensures bottomCover == Vec3(CoverAngles(Angle, maxOpening * Power).bottom, old(topCover.y), old(topCover.z))
    {
      SetAngle(Angle);
    }

    /**
     * Sets the power: the request is clamped to [0, 1], every particle system
     * gets the emission for that power, and the covers are re-opened through
     * the argument-less SetAngle, which also re-scales the stored angle.
     */
    method SetPower(power: real)
      requires Valid()
      modifies this`Power, this`Angle, this`nozzle, this`topCover, this`bottomCover, particles
      ensures Valid()
      ensures Power == Clamp01(power)
      ensures forall i :: 0 <= i < particles.Length ==> particles[i] == Emission(Power, maxParticles)
      ensures Angle == ScaledAngle(old(Angle), maxAngle)
      ensures nozzle == Vec3(old(Angle), 0.0, 0.0)
      ensures topCover == Vec3(CoverAngles(Angle, maxOpening * Power).top, old(topCover.y), old(topCover.z))
      ensures bottomCover == Vec3(CoverAngles(Angle, maxOpening * Power).bottom, old(topCover.y), old(topCover.z))
    {
      Power := Clamp01(power);

      var i := 0;
      while i < particles.Length
        modifies particles
        invariant 0 <= i <= particles.Length
        invariant forall j :: 0 <= j < i ==> particles[j] == Emission(Power, maxParticles)
      {
        particles[i] := particles[i].(rate := Power * maxParticles);
        if Power == 0.0 {
          particles[i] := particles[i].(playing := false);
        } else {
          particles[i] := particles[i].(playing := true);
        }
        i := i + 1;
      }

      SetAngleToCurrent();
    }
  }
}
