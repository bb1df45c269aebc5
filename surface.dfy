/**
 * An aerodynamic surface: a flat patch attached to an aerodynamic body. On
 * every physics tick it measures how far it moved since the previous tick,
 * corrects that displacement for the wind, turns it into a force along its
 * normal, drops the components of that force on the axes it is told to
 * ignore, and pushes the result into the body.
 *
 * The engine supplies what needs trigonometry: the cosine of the angle
 * between the surface normal and the oncoming air, and the parent's local
 * frame (the local vector whose image is the surface normal).
 */
module Surface {
  import opened Maths
  import opened Body

  /** Three per-axis flags; a set flag marks an axis the surface does not act on. */
  datatype BooleanVector3 = BooleanVector3(x: bool, y: bool, z: bool) {
    /** 1 on every flagged axis, 0 elsewhere. */
    function Vector(): (r: Vec3)
      ensures r.x == (if x then 1.0 else 0.0)
      ensures r.y == (if y then 1.0 else 0.0)
      ensures r.z == (if z then 1.0 else 0.0)
    {
      Vec3(if x then 1.0 else 0.0, if y then 1.0 else 0.0, if z then 1.0 else 0.0)
    }

    /** The complement of Vector: on every axis exactly one of the two is 1. */
    function InverseVector(): (r: Vec3)
      ensures Add(r, Vector()) == Vec3(1.0, 1.0, 1.0)
      ensures (r.x == 0.0 || r.x == 1.0) && (r.y == 0.0 || r.y == 1.0) && (r.z == 0.0 || r.z == 1.0)
    {
      Vec3(if x then 0.0 else 1.0, if y then 0.0 else 1.0, if z then 0.0 else 1.0)
    }
  }

  /**
   * Drops the components of a parent-local direction on the flagged axes, by
   * multiplying each one with the inverse vector.
   */
  function Mask(clampAxes: BooleanVector3, v: Vec3): (r: Vec3)
    ensures clampAxes.x ==> r.x == 0.0
    ensures clampAxes.y ==> r.y == 0.0
    ensures clampAxes.z ==> r.z == 0.0
    ensures !clampAxes.x ==> r.x == v.x
    ensures !clampAxes.y ==> r.y == v.y
    ensures !clampAxes.z ==> r.z == v.z
  {
    var keep := clampAxes.InverseVector();
    Vec3(keep.x * v.x, keep.y * v.y, keep.z * v.z)
  }

  /**
   * The surface's displacement relative to the air: the raw displacement
   * minus how far the wind carried the air over one fixed tick.
   */
  function ActualDisplacement(delta: Vec3, wind: Vec3, fixedDeltaTime: real): (r: Vec3)
    ensures Add(r, Scale(fixedDeltaTime, wind)) == delta
    ensures wind == Zero ==> r == delta
  {
    Sub(delta, Scale(fixedDeltaTime, wind))
  }

  /**
   * The force on the surface's normal: the incidence cosine times the area
   * times the squared speed of the surface through the air.
   */
  function NormalForce(incidence: real, area: real, d: Vec3): real {
    incidence * area * SqrMagnitude(d)
  }

  /** A surface that does not move through the air feels no force. */
  lemma NormalForceAtRest(incidence: real, area: real)
    ensures NormalForce(incidence, area, Zero) == 0.0
  {
    assert SqrMagnitude(Zero) == 0.0;
  }

  /**
   * Whatever the incidence, the normal force never exceeds what air striking
   * the surface head-on would produce.
   */
  lemma NormalForceBound(incidence: real, area: real, d: Vec3)
    requires -1.0 <= incidence <= 1.0 && area >= 0.0
    ensures Abs(NormalForce(incidence, area, d)) <= area * SqrMagnitude(d)
  {
    var s := SqrMagnitude(d);
    SqrMagnitudeNonNeg(d);
    MulNonNeg(area, s);
    var p := area * s;
    ScaleBounded(incidence, p);
    var f := NormalForce(incidence, area, d);
    assert f == incidence * p;
    assert -p <= f <= p;
  }

  /**
   * On a surface of positive area moving through the air, the normal force
   * pushes the way the incidence cosine points: forward when the air meets
   * the front, backward when it meets the back, not at all when it runs
   * along the surface.
   */
  lemma NormalForceSign(incidence: real, area: real, d: Vec3)
    requires area > 0.0 && d != Zero
    ensures NormalForce(incidence, area, d) > 0.0 <==> incidence > 0.0
    ensures NormalForce(incidence, area, d) < 0.0 <==> incidence < 0.0
  {
    var s := SqrMagnitude(d);
    SqrMagnitudePos(d);
    if incidence > 0.0 {
      MulPos(incidence, area);
      var p := incidence * area;
      MulPos(p, s);
    } else if incidence < 0.0 {
      var n := -incidence;
      MulPos(n, area);
      var p := n * area;
      MulPos(p, s);
      assert NormalForce(incidence, area, d) == -(p * s);
    }
  }

  /** A frame of three world-space axes, as a transform holds them. */
  datatype Basis = Basis(right: Vec3, up: Vec3, forward: Vec3) {
    /** Transform.TransformVector: local coordinates to a world direction. */
    function TransformVector(v: Vec3): Vec3 {
      Add(Add(Scale(v.x, right), Scale(v.y, up)), Scale(v.z, forward))
    }
  }

  /**
   * The force the surface pushes into its body: the parent-local normal with
   * the flagged axes dropped, back in world space, scaled by the body's
   * default force, the surface's multiplier and the normal force.
   */
  function ForceOverObject(defaultForce: real, forceMultiplier: real, forceMagnitude: real,
                           frame: Basis, localNormal: Vec3, clampAxes: BooleanVector3): Vec3
  {
    Scale(defaultForce * forceMultiplier * forceMagnitude, frame.TransformVector(Mask(clampAxes, localNormal)))
  }

  /** With no axis masked, the whole surface normal is pushed, scaled, into the body. */
  lemma ForceOverObjectUnmasked(defaultForce: real, forceMultiplier: real, forceMagnitude: real,
                                frame: Basis, localNormal: Vec3)
    ensures ForceOverObject(defaultForce, forceMultiplier, forceMagnitude, frame, localNormal,
                            BooleanVector3(false, false, false))
         == Scale(defaultForce * forceMultiplier * forceMagnitude, frame.TransformVector(localNormal))
  {
    assert Mask(BooleanVector3(false, false, false), localNormal) == localNormal;
  }

  /** No force reaches the body when every axis is masked or the normal force is zero. */
  lemma ForceOverObjectVanishes(defaultForce: real, forceMultiplier: real, forceMagnitude: real,
                                frame: Basis, localNormal: Vec3, clampAxes: BooleanVector3)
    requires clampAxes == BooleanVector3(true, true, true) || forceMagnitude == 0.0
    ensures ForceOverObject(defaultForce, forceMultiplier, forceMagnitude, frame, localNormal, clampAxes) == Zero
  {
    var k := defaultForce * forceMultiplier * forceMagnitude;
    if forceMagnitude == 0.0 {
      assert k == 0.0;
    } else {
      assert Mask(clampAxes, localNormal) == Zero;
      assert frame.TransformVector(Zero) == Zero;
    }
  }

  /**
   * The surface's local normal and its world normal come from the same
   * forward axis, so the frame maps one onto the other. With no axis masked
   * the force is then pushed along the surface normal itself.
   */
  lemma ForceOverObjectAlongNormal(defaultForce: real, forceMultiplier: real, forceMagnitude: real,
                                   frame: Basis, localNormal: Vec3, normal: Vec3)
    requires frame.TransformVector(localNormal) == normal
    ensures ForceOverObject(defaultForce, forceMultiplier, forceMagnitude, frame, localNormal,
                            BooleanVector3(false, false, false))
         == Scale(defaultForce * forceMultiplier * forceMagnitude, normal)
  {
    ForceOverObjectUnmasked(defaultForce, forceMultiplier, forceMagnitude, frame, localNormal);
  }

  /**
   * Under the weather the static initialiser sets up, a body faces exactly
   * its own reversed motion and a surface's displacement through the air is
   * its raw displacement.
   */
  lemma InitialWeatherIsStill(body: AerodynamicObject, delta: Vec3, fixedDeltaTime: real)
    ensures body.FacingAirflow(InitialMeteorology()) == Neg(body.Velocity())
    ensures ActualDisplacement(delta, InitialMeteorology().windVelocity, fixedDeltaTime) == delta
  {
  }

  class AerodynamicSurface {
    /** The body this surface belongs to; without one the surface does nothing. */
    const parent: AerodynamicObject?
    const forceMultiplier: real
    const clampAxes: BooleanVector3

    /** Displacement since the previous physics tick. */
    var deltaPosition: Vec3
    /** Where the surface was at the previous physics tick. */
    var lastFramePos: Vec3
    var area: real

    /** A new component: its private fields hold the engine's defaults. */
    constructor (parent: AerodynamicObject?, forceMultiplier: real, clampAxes: BooleanVector3)
      ensures this.parent == parent && this.forceMultiplier == forceMultiplier
      ensures this.clampAxes == clampAxes
      ensures deltaPosition == Zero && lastFramePos == Zero && area == 0.0
    {
      this.parent := parent;
      this.forceMultiplier := forceMultiplier;
      this.clampAxes := clampAxes;
      deltaPosition := Zero;
      lastFramePos := Zero;
      area := 0.0;
    }

    /** On being enabled the history restarts from the current position. */
    method OnEnable(position: Vec3)
      modifies this`lastFramePos
      ensures lastFramePos == position
    {
      lastFramePos := position;
    }

    /** Start: no displacement yet, history at the current position, area of the sprite. */
    method Start(position: Vec3, width: real, height: real)
      modifies this`deltaPosition, this`lastFramePos, this`area
      ensures deltaPosition == Zero && lastFramePos == position
      ensures area == width * height
    {
      deltaPosition := Zero;
      lastFramePos := position;
      area := width * height;
    }

    /**
     * The normal force for the current displacement; `incidence` is the
     * engine's cosine of the angle between two directions.
     */
    function GetNormalForce(wind: Vec3, fixedDeltaTime: real, normal: Vec3,
                            incidence: (Vec3, Vec3) -> real): real
      reads this
    {
      var actual := ActualDisplacement(deltaPosition, wind, fixedDeltaTime);
      NormalForce(incidence(normal, Neg(actual)), area, actual)
    }

    /** Pushes the masked, scaled normal into the body as a velocity change. */
    method ApplyForceOverObject(forceMagnitude: real, position: Vec3, frame: Basis, localNormal: Vec3)
      requires parent != null
      modifies parent.rigidbody
      ensures parent.Velocity() == old(parent.Velocity())
      ensures parent.rigidbody.log == old(parent.rigidbody.log) +
        [AppliedForce(ForceOverObject(parent.defaultForce, forceMultiplier, forceMagnitude,
                                      frame, localNormal, clampAxes), position, VelocityChange)]
    {
      var totalForce := ForceOverObject(parent.defaultForce, forceMultiplier, forceMagnitude,
                                        frame, localNormal, clampAxes);
      parent.AddForceAtPosition(totalForce, position, VelocityChange);
    }

    /**
     * One physics tick with a parent: the displacement is measured against
     * the previous tick's position, exactly one force is pushed into the
     * body, and the history moves on to the current position.
     */
    method TickWithParent(position: Vec3, normal: Vec3, weather: Meteorology, fixedDeltaTime: real,
                          incidence: (Vec3, Vec3) -> real, frame: Basis, localNormal: Vec3)
      requires parent != null
      requires frame.TransformVector(localNormal) == normal
      modifies this`deltaPosition, this`lastFramePos, parent.rigidbody
      ensures deltaPosition == Sub(position, old(lastFramePos))
      ensures lastFramePos == position
      ensures parent.Velocity() == old(parent.Velocity())
      ensures var actual := ActualDisplacement(deltaPosition, weather.windVelocity, fixedDeltaTime);
              var magnitude := NormalForce(incidence(normal, Neg(actual)), area, actual);
              parent.rigidbody.log == old(parent.rigidbody.log) +
                [AppliedForce(ForceOverObject(parent.defaultForce, forceMultiplier, magnitude,
                                              frame, localNormal, clampAxes), position, VelocityChange)]
    {
      deltaPosition := Sub(position, lastFramePos);
      var force := GetNormalForce(weather.windVelocity, fixedDeltaTime, normal, incidence);
      ApplyForceOverObject(force, position, frame, localNormal);
      lastFramePos := position;
    }

    /**
     * One physics tick. `position` and `normal` are the surface's world
     * position and forward axis; `localNormal` is that axis in the parent's
     * frame, so `frame` maps it back onto `normal`. Without a parent nothing
     * changes.
     */
    method FixedUpdate(position: Vec3, normal: Vec3, weather: Meteorology, fixedDeltaTime: real,
                       incidence: (Vec3, Vec3) -> real, frame: Basis, localNormal: Vec3)
      requires frame.TransformVector(localNormal) == normal
      modifies this`deltaPosition, this`lastFramePos, if parent == null then {} else {parent.rigidbody}
      ensures parent == null ==> deltaPosition == old(deltaPosition) && lastFramePos == old(lastFramePos)
      ensures parent != null ==> deltaPosition == Sub(position, old(lastFramePos))
      ensures parent != null ==> lastFramePos == position
      ensures parent != null ==> parent.Velocity() == old(parent.Velocity())
      ensures parent != null ==>
        var actual := ActualDisplacement(deltaPosition, weather.windVelocity, fixedDeltaTime);
        var magnitude := NormalForce(incidence(normal, Neg(actual)), area, actual);
        parent.rigidbody.log == old(parent.rigidbody.log) +
          [AppliedForce(ForceOverObject(parent.defaultForce, forceMultiplier, magnitude,
                                        frame, localNormal, clampAxes), position, VelocityChange)]
    {
      if parent == null {
        return;
      }
      TickWithParent(position, normal, weather, fixedDeltaTime, incidence, frame, localNormal);
    }
  }
}
