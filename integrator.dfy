/**
 One semi-implicit Euler step of the cart's motion.

 The acceleration is the push divided by the mass; the velocity is advanced
 first, and the new velocity then advances the position. Elapsed time is in
 milliseconds, and the position is in canvas pixels, `width / SCALE` of them
 to the metre.
 */
module Integrator {

  /** The canvas is this many metres wide. */
  const SCALE: real := 35.0

  /** The kinematic state of the cart. */
  datatype Motion = Motion(x: real, velocity: real, acceleration: real)

  /** The state after a push of `push` newtons for `timePassed` milliseconds.
      Newton's second law: the new acceleration times the mass is the push. */
  function Advance(m: Motion, push: real, mass: real, timePassed: real, width: real): (r: Motion)
    requires mass != 0.0
    ensures mass * r.acceleration == push
  {
    var acceleration := push / mass;
    var velocity := m.velocity + acceleration * timePassed / 1000.0;
    Motion(m.x + velocity * timePassed / 1000.0 * (width / SCALE), velocity, acceleration)
  }

  /** Without a push the velocity does not change and the acceleration is 0. */
  lemma AdvanceNoPush(m: Motion, mass: real, timePassed: real, width: real)
    requires mass != 0.0
    ensures var r := Advance(m, 0.0, mass, timePassed, width);
      r.velocity == m.velocity && r.acceleration == 0.0
      && r.x == m.x + m.velocity * (timePassed / 1000.0) * (width / SCALE)
  {
  }

  /** Without elapsed time neither velocity nor position change. */
  lemma AdvanceNoTime(m: Motion, push: real, mass: real, width: real)
    requires mass != 0.0
    ensures var r := Advance(m, push, mass, 0.0, width);
      r.velocity == m.velocity && r.x == m.x
  {
  }

  /** The position moves by the NEW velocity: with `s` the step in seconds, the
      displacement holds the old velocity's `v s` and the push's `a s^2`, not
      the `v s` alone of an explicit Euler step. */
  lemma AdvanceSemiImplicit(m: Motion, push: real, mass: real, timePassed: real, width: real)
    requires mass != 0.0
    ensures var r := Advance(m, push, mass, timePassed, width);
      var s := timePassed / 1000.0;
      r.velocity == m.velocity + r.acceleration * s
      && r.x == m.x + (m.velocity * s + r.acceleration * s * s) * (width / SCALE)
  {
    var r := Advance(m, push, mass, timePassed, width);
    var s := timePassed / 1000.0;
    assert r.acceleration * timePassed / 1000.0 == r.acceleration * s;
    assert r.velocity * timePassed / 1000.0 == (m.velocity + r.acceleration * s) * s;
  }

  function Sum(s: seq<real>): (r: real)
  {
    if s == [] then 0.0 else s[0] + Sum(s[1..])
  }

  /** The state after one step per entry of `times`, all with the same push. */
  function Drive(m: Motion, push: real, mass: real, times: seq<real>, width: real): (r: Motion)
    requires mass != 0.0
    decreases |times|
  {
    if times == [] then m
    else Drive(Advance(m, push, mass, times[0], width), push, mass, times[1..], width)
  }

  /** Under a constant push the velocity grows by exactly the push over the
      mass times the total elapsed time, however the time is split into frames. */
  lemma {:induction false} DriveVelocity(m: Motion, push: real, mass: real, times: seq<real>, width: real)
    requires mass != 0.0
    ensures Drive(m, push, mass, times, width).velocity == m.velocity + push / mass * Sum(times) / 1000.0
    decreases |times|
  {
    if times != [] {
      var m' := Advance(m, push, mass, times[0], width);
      DriveVelocity(m', push, mass, times[1..], width);
      assert push / mass * Sum(times) / 1000.0
          == push / mass * times[0] / 1000.0 + push / mass * Sum(times[1..]) / 1000.0;
    }
  }

  /** Coasting: without a push the velocity is kept and the position advances
      linearly in the total elapsed time. */
  lemma {:induction false} Coast(m: Motion, mass: real, times: seq<real>, width: real)
    requires mass != 0.0
    ensures var r := Drive(m, 0.0, mass, times, width);
      r.velocity == m.velocity && r.x == m.x + m.velocity * (Sum(times) / 1000.0) * (width / SCALE)
    decreases |times|
  {
    if times != [] {
      var m' := Advance(m, 0.0, mass, times[0], width);
      AdvanceNoPush(m, mass, times[0], width);
      Coast(m', mass, times[1..], width);
      assert m.velocity * (Sum(times) / 1000.0)
          == m.velocity * (times[0] / 1000.0) + m.velocity * (Sum(times[1..]) / 1000.0);
    }
  }

  /** The simulated cart: its motion is updated in place once per frame. */
  class Cart {
    var x: real
    var velocity: real
    var acceleration: real
    const mass: real
    /** Size of the drawn box, in pixels. */
    const width: real
    const height: real

    ghost predicate Valid()
      reads this
    {
      mass > 0.0
    }

    function State(): (r: Motion)
      reads this
    {
      Motion(x, velocity, acceleration)
    }

    /** A cart at rest at `x`. */
    constructor (x: real, mass: real, width: real, height: real)
      requires mass > 0.0
      ensures Valid()
      ensures State() == Motion(x, 0.0, 0.0)
      ensures this.mass == mass && this.width == width && this.height == height
    {
      this.x := x;
      velocity := 0.0;
      acceleration := 0.0;
      this.mass := mass;
      this.width := width;
      this.height := height;
    }

    /** Applies `push` for `timePassed` milliseconds on a canvas `canvasWidth` wide. */
    method Step(push: real, timePassed: real, canvasWidth: real)
      requires Valid()
      modifies this
      ensures Valid()
      ensures State() == Advance(old(State()), push, mass, timePassed, canvasWidth)
    {
      acceleration := push / mass;
      velocity := velocity + acceleration * timePassed / 1000.0;
      x := x + velocity * timePassed / 1000.0 * (canvasWidth / SCALE);
    }
  }
}
