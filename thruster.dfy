/**
 * The jet thruster: a throttle-controlled engine whose nozzle can be tilted
 * for vectorial thrust. It keeps a power level in [0, 1] and a vector angle in
 * degrees, opens its two nozzle covers symmetrically around that angle in
 * proportion to the power, drives the emission of its particle systems from
 * the power, and pushes a thrust force along its nozzle every physics tick.
 *
 * The rules the component follows are stated here once, as functions, and
 * shared with its duplicate, the Thrusters component.
 */
module ThrusterComponent {
  import opened Maths
  import opened Body

  /**
   * The stored vector angle for a requested angle: the request is clamped to
   * [-1, 1] and scaled by the maximum angle.
   */
  function ScaledAngle(angle: real, maxAngle: real): real {
    Clamp(angle, -1.0, 1.0) * maxAngle
  }

  /**
   * The stored angle never exceeds the maximum angle in magnitude, and a
   * request at or beyond full deflection yields exactly the maximum.
   */
  lemma ScaledAngleBound(angle: real, maxAngle: real)
    ensures Abs(ScaledAngle(angle, maxAngle)) <= Abs(maxAngle)
    ensures angle >= 1.0 ==> ScaledAngle(angle, maxAngle) == maxAngle
    ensures angle <= -1.0 ==> ScaledAngle(angle, maxAngle) == -maxAngle
  {
    var c := Clamp(angle, -1.0, 1.0);
    assert ScaledAngle(angle, maxAngle) == c * maxAngle;
    if maxAngle >= 0.0 {
      ScaleBounded(c, maxAngle);
    } else {
      var m := -maxAngle;
      ScaleBounded(c, m);
      assert c * maxAngle == -(c * m);
    }
  }

  /**
   * Re-scaling an already scaled angle, as SetPower does through the
   * argument-less SetAngle: with a maximum angle of at least one degree,
   * a stored angle of at least one degree re-scales to the full maximum, and
   * one of at most minus one degree to the full negative maximum, whatever
   * the angle was before.
   */
  lemma ReappliedAngleSaturates(angle: real, maxAngle: real)
    requires maxAngle >= 1.0
    ensures ScaledAngle(angle, maxAngle) >= 1.0 ==>
      ScaledAngle(ScaledAngle(angle, maxAngle), maxAngle) == maxAngle
    ensures ScaledAngle(angle, maxAngle) <= -1.0 ==>
      ScaledAngle(ScaledAngle(angle, maxAngle), maxAngle) == -maxAngle
  {
    ScaledAngleBound(ScaledAngle(angle, maxAngle), maxAngle);
  }

  /** The x angles of the two nozzle covers. */
  datatype Covers = Covers(top: real, bottom: real)

  /**
   * The covers open by `opening` on either side of the vector angle: they
   * stay centred on it, `2 * opening` apart.
   */
  function CoverAngles(angle: real, opening: real): (c: Covers)
    ensures c.top + c.bottom == 2.0 * angle
    ensures c.bottom - c.top == 2.0 * opening
    ensures opening == 0.0 ==> c.top == angle && c.bottom == angle
  {
    Covers(angle - opening, angle + opening)
  }

  /** What the component records of one particle system: its emission rate and whether it plays. */
  datatype ParticleState = ParticleState(rate: real, playing: bool)

  /** The emission a particle system gets for a power level: it plays exactly at non-zero power. */
  function Emission(power: real, maxParticles: real): (r: ParticleState)
    ensures r.playing <==> power != 0.0
  {
    ParticleState(power * maxParticles, power != 0.0)
  }

  /** An idle engine emits nothing. */
  lemma EmissionIdle(maxParticles: real)
    ensures Emission(0.0, maxParticles) == ParticleState(0.0, false)
  {
  }

  /** The thrust pushed along the nozzle's forward axis. */
  function ThrustForce(power: real, thrustForce: real, forward: Vec3): Vec3 {
    Scale(power * thrustForce, forward)
  }

  /** The thrust is proportional to the power: the full-power thrust scaled by it. */
  lemma ThrustProportional(power: real, thrustForce: real, forward: Vec3)
    ensures ThrustForce(power, thrustForce, forward) == Scale(power, ThrustForce(1.0, thrustForce, forward))
  {
    assert (power * thrustForce) * forward.x == power * ((1.0 * thrustForce) * forward.x);
    assert (power * thrustForce) * forward.y == power * ((1.0 * thrustForce) * forward.y);
    assert (power * thrustForce) * forward.z == power * ((1.0 * thrustForce) * forward.z);
  }

  /**
   * At power in [0, 1], every component of the thrust is at most the
   * full-power thrust's in magnitude.
   */
  lemma ThrustWithinFullPower(power: real, thrustForce: real, forward: Vec3)
    requires 0.0 <= power <= 1.0
    ensures Abs(ThrustForce(power, thrustForce, forward).x) <= Abs(ThrustForce(1.0, thrustForce, forward).x)
    ensures Abs(ThrustForce(power, thrustForce, forward).y) <= Abs(ThrustForce(1.0, thrustForce, forward).y)
    ensures Abs(ThrustForce(power, thrustForce, forward).z) <= Abs(ThrustForce(1.0, thrustForce, forward).z)
  {
    ThrustProportional(power, thrustForce, forward);
    ScaleComponentsWithin(power, ThrustForce(1.0, thrustForce, forward));
  }

  /** An idle engine pushes nothing. */
  lemma ThrustIdle(thrustForce: real, forward: Vec3)
    ensures ThrustForce(0.0, thrustForce, forward) == Zero
  {
    assert 0.0 * thrustForce == 0.0;
  }

  class Thruster {
    const thrustForce: real
    const maxOpening: real
    const maxAngle: real
    const maxParticles: real
    /** The body the thrust is pushed into. */
    const parent: AerodynamicObject
    /** The particle systems under the nozzle. */
    const particles: array<ParticleState>

    /** Throttle level in [0, 1]. */
    var Power: real
    /** Vector angle in degrees. */
    var Angle: real
    /** The local euler angles of the nozzle (the particles' parent). */
    var nozzle: Vec3
    /** The local euler angles of the two covers. */
    var topCover: Vec3
    var bottomCover: Vec3

    ghost predicate Valid()
      reads this
    {
      && 0.0 <= Power <= 1.0
      && Abs(Angle) <= Abs(maxAngle)
    }

    /** A new component: power and angle hold the engine's default of zero. */
    constructor (thrustForce: real, maxOpening: real, maxAngle: real, maxParticles: real,
                 parent: AerodynamicObject, particles: array<ParticleState>,
                 nozzle: Vec3, topCover: Vec3, bottomCover: Vec3)
      ensures Valid()
      ensures this.thrustForce == thrustForce && this.maxOpening == maxOpening
      ensures this.maxAngle == maxAngle && this.maxParticles == maxParticles
      ensures this.parent == parent && this.particles == particles
      ensures Power == 0.0 && Angle == 0.0
      ensures this.nozzle == nozzle && this.topCover == topCover && this.bottomCover == bottomCover
    {
      this.thrustForce := thrustForce;
      this.maxOpening := maxOpening;
      this.maxAngle := maxAngle;
      this.maxParticles := maxParticles;
      this.parent := parent;
      this.particles := particles;
      Power := 0.0;
      Angle := 0.0;
      this.nozzle := nozzle;
      this.topCover := topCover;
      this.bottomCover := bottomCover;
    }

    /** Pushes the thrust into the body as an acceleration. */
    method FixedUpdate(forward: Vec3, position: Vec3)
      modifies parent.rigidbody
      ensures parent.Velocity() == old(parent.Velocity())
      ensures parent.rigidbody.log ==
        old(parent.rigidbody.log) + [AppliedForce(ThrustForce(Power, thrustForce, forward), position, Acceleration)]
    {
      parent.AddForceAtPosition(ThrustForce(Power, thrustForce, forward), position, Acceleration);
    }

    /**
     * Sets the vector angle. The nozzle is turned by the raw request, while
     * the stored angle and the covers use the clamped, scaled one; both covers
     * keep the top cover's y and z angles.
     */
    method SetAngle(angle: real)
      requires Valid()
      modifies this`Angle, this`nozzle, this`topCover, this`bottomCover
      ensures Valid()
      ensures Angle == ScaledAngle(angle, maxAngle)
      ensures nozzle == Vec3(angle, 0.0, 0.0)
      ensures topCover == Vec3(CoverAngles(Angle, maxOpening * Power).top, old(topCover.y), old(topCover.z))
      ensures bottomCover == Vec3(CoverAngles(Angle, maxOpening * Power).bottom, old(topCover.y), old(topCover.z))
    {
      Angle := Clamp(angle, -1.0, 1.0);
      Angle := Angle * maxAngle;
      assert Angle == ScaledAngle(angle, maxAngle);
      ScaledAngleBound(angle, maxAngle);

      nozzle := Vec3(angle, 0.0, 0.0);

      var opening := maxOpening * Power;
      topCover := Vec3(Angle - opening, topCover.y, topCover.z);
      bottomCover := Vec3(Angle + opening, topCover.y, topCover.z);
    }

    /** The argument-less SetAngle: re-applies SetAngle to the stored, already scaled, angle. */
    method SetAngleToCurrent()
      requires Valid()
      modifies this`Angle, this`nozzle, this`topCover, this`bottomCover
      ensures Valid()
      ensures Angle == ScaledAngle(old(Angle), maxAngle)
      ensures nozzle == Vec3(old(Angle), 0.0, 0.0)
      ensures topCover == Vec3(CoverAngles(Angle, maxOpening * Power).top, old(topCover.y), old(topCover.z))
      ensures bottomCover == Vec3(CoverAngles(Angle, maxOpening * Power).bottom, old(topCover.y), old(topCover.z))
    {
      SetAngle(Angle);
    }

    /**
     * Sets the power: the request is clamped to [0, 1], every particle system
     * gets the emission for that power, and the covers are re-opened through
     * the argument-less SetAngle, which also re-scales the stored angle.
     */
    method SetPower(power: real)
      requires Valid()
      modifies this`Power, this`Angle, this`nozzle, this`topCover, this`bottomCover, particles
      ensures Valid()
      ensures Power == Clamp01(power)
      ensures forall i :: 0 <= i < particles.Length ==> particles[i] == Emission(Power, maxParticles)
      ensures Angle == ScaledAngle(old(Angle), maxAngle)
      ensures nozzle == Vec3(old(Angle), 0.0, 0.0)
      ensures topCover == Vec3(CoverAngles(Angle, maxOpening * Power).top, old(topCover.y), old(topCover.z))
      ensures bottomCover == Vec3(CoverAngles(Angle, maxOpening * Power).bottom, old(topCover.y), old(topCover.z))
    {
      Power := Clamp01(power);

      var i := 0;
      while i < particles.Length
        modifies particles
        invariant 0 <= i <= particles.Length
        invariant forall j :: 0 <= j < i ==> particles[j] == Emission(Power, maxParticles)
      {
        particles[i] := particles[i].(rate := Power * maxParticles);
        if Power == 0.0 {
          particles[i] := particles[i].(playing := false);
        } else {
          particles[i] := particles[i].(playing := true);
        }
        i := i + 1;
      }

      SetAngleToCurrent();
    }
  }
}
