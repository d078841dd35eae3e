/**
 One frame of the simulation: the pointer's push moves the cart, and the
 cart's new position is logged with the push signed by the direction of travel.
 The clock, the pointer, and the canvas are inputs, not part of this model.
 */
module Physics {
  import opened SampleLog
  import opened PushForce
  import opened Integrator

  /** Cart size as a fraction of the canvas width and height. */
  const CART_WIDTH: real := 0.125
  const CART_HEIGHT: real := 0.04
  /** The cart's mass, in kilograms. */
  const CART_MASS: real := 5.0
  /** Fraction of the cart's width, from each side, that registers a push. */
  const HITBOX_RATIO: real := 0.5
  /** The largest push, in newtons. */
  const PUSH_FORCE: real := 25.0

  function Abs(v: real): (r: real)
  {
    if v < 0.0 then -v else v
  }

  lemma SignCancels(push: real, velocity: real)
    requires velocity != 0.0
    ensures push * velocity / Abs(velocity) == if velocity > 0.0 then push else -push
  {
    var q := push * velocity / Abs(velocity);
    assert q * Abs(velocity) == push * velocity;
    if velocity > 0.0 {
      assert (q - push) * velocity == 0.0;
    } else {
      assert (q + push) * velocity == 0.0;
    }
  }

  /** The logged value: the push times the sign of the velocity, as computed
      by `push * velocity / Math.abs(velocity)`, which is `0 / 0` (NaN) when
      the cart stands still. */
  function EffectiveForce(push: real, velocity: real): (r: JsNumber)
    ensures r == NaN <==> velocity == 0.0
    ensures velocity > 0.0 ==> r == Finite(push)
    ensures velocity < 0.0 ==> r == Finite(-push)
  {
    if velocity == 0.0 then NaN
    else
      SignCancels(push, velocity);
      Finite(push * velocity / Abs(velocity))
  }

  /** The push the pointer applies this frame, for a cart at `cartX`: the cart's
      box and the track line are derived from the canvas size. */
  function FramePush(mouseX: real, mouseY: real, cartX: real, width: real, height: real): (r: real)
    ensures -PUSH_FORCE < r < PUSH_FORCE
    ensures r != 0.0 ==> cartX - width * CART_WIDTH / 2.0 < mouseX < cartX + width * CART_WIDTH / 2.0
  {
    Push(mouseX, mouseY, cartX, width * CART_WIDTH, height * CART_HEIGHT,
         height / 2.0, height / 5.0, HITBOX_RATIO, PUSH_FORCE)
  }

  /** The cart stands at the last logged position, unless it is off the canvas. */
  ghost predicate Tracks(h: seq<Sample>, x: real, width: real)
    requires |h| > 0
  {
    h[|h| - 1].x == x || x < 0.0 || x > width
  }

  /** Every logged value is a number. */
  ghost predicate AllFinite(h: seq<Sample>)
  {
    forall i :: 0 <= i < |h| ==> h[i].y.Finite?
  }

  /** A frame keeps the log tracking the cart, and it never logs NaN: a cart
      whose new velocity is 0 has not moved, so its position is either the
      last logged one or off the canvas, and the update is dropped. */
  lemma FrameKeepsLogFinite(h: seq<Sample>, m: Motion, push: real, timePassed: real, width: real)
    requires |h| > 0 && AllFinite(h) && Tracks(h, m.x, width)
    ensures var m' := Advance(m, push, CART_MASS, timePassed, width);
      var h' := Updated(h, m'.x, EffectiveForce(push, m'.velocity), width);
      AllFinite(h') && Tracks(h', m'.x, width)
  {
    var m' := Advance(m, push, CART_MASS, timePassed, width);
    var y := EffectiveForce(push, m'.velocity);
    var h' := Updated(h, m'.x, y, width);
    UpdatedChangesIff(h, m'.x, y, width);
    if m'.velocity == 0.0 {
      assert m'.x == m.x;
      assert h' == h;
    } else {
      assert y.Finite?;
      assert forall i :: 0 <= i < |h'| ==> h'[i].y.Finite? by {
        forall i | 0 <= i < |h'| ensures h'[i].y.Finite? {
          if i < |h| - 1 {
            assert h'[i] == h'[..|h| - 1][i] == h[..|h| - 1][i];
          }
        }
      }
    }
  }

  /** A simulation session on a canvas `width` by `height` pixels. */
  class Simulation {
    const width: real
    const height: real
    const cart: Cart
    const histogram: Histogram

    ghost predicate Valid()
      reads this, cart, histogram
    {
      && cart.Valid() && histogram.Valid()
      && cart.mass == CART_MASS
      && cart.width == width * CART_WIDTH && cart.height == height * CART_HEIGHT
      && histogram.width == width
      && Tracks(histogram.samples, cart.x, width) && AllFinite(histogram.samples)
    }

    /** The cart starts at rest in the middle, and the log holds that position with value 0. */
    constructor (width: real, height: real)
      ensures Valid() && fresh(cart) && fresh(histogram)
      ensures this.width == width && this.height == height
      ensures cart.State() == Motion(width / 2.0, 0.0, 0.0)
      ensures histogram.samples == [Sample(width / 2.0, Finite(0.0))]
    {
      this.width := width;
      this.height := height;
      cart := new Cart(width / 2.0, CART_MASS, width * CART_WIDTH, height * CART_HEIGHT);
      histogram := new Histogram(width / 2.0, width);
    }

    /** One frame: `timePassed` milliseconds have gone by and the pointer is at (mouseX, mouseY). */
    method UpdatePhysics(mouseX: real, mouseY: real, timePassed: real)
      requires Valid()
      modifies cart, histogram
      ensures Valid()
      ensures var push := FramePush(mouseX, mouseY, old(cart.x), width, height);
        && cart.State() == Advance(old(cart.State()), push, CART_MASS, timePassed, width)
        && histogram.samples == Updated(old(histogram.samples), cart.x, EffectiveForce(push, cart.velocity), width)
    {
      FrameKeepsLogFinite(histogram.samples, cart.State(),
        FramePush(mouseX, mouseY, cart.x, width, height), timePassed, width);
      var top := height / 2.0;
      var simHeight := height / 5.0;
      var push := Push(mouseX, mouseY, cart.x, cart.width, cart.height, top, simHeight, HITBOX_RATIO, PUSH_FORCE);
      cart.Step(push, timePassed, width);
      histogram.Update(cart.x, EffectiveForce(push, cart.velocity));
    }
  }

  /** A pointer 5 units inside the left edge of a 20-unit cart centred at 100
      pushes with 12.5 N; on a 5 kg cart over one second that is 2.5 m/s, which
      moves the cart 2.5 units when a unit is a metre. */
  lemma LeftPushScenario()
    ensures Push(95.0, 50.0, 100.0, 20.0, 10.0, 0.0, 70.0, 0.5, 25.0) == 12.5
    ensures Advance(Motion(100.0, 0.0, 0.0), 12.5, 5.0, 1000.0, SCALE) == Motion(102.5, 2.5, 2.5)
  {
    PushLeftZone(95.0, 50.0, 100.0, 20.0, 10.0, 0.0, 70.0, 0.5, 25.0);
  }

  /** The first frame after start-up with the pointer away from the cart
      leaves the cart and the log as they were. */
  lemma FirstIdleFrame(width: real, height: real, mouseX: real, mouseY: real, timePassed: real)
    requires !(width / 2.0 - width * CART_WIDTH / 2.0 < mouseX < width / 2.0 + width * CART_WIDTH / 2.0)
    ensures var push := FramePush(mouseX, mouseY, width / 2.0, width, height);
      var m := Advance(Motion(width / 2.0, 0.0, 0.0), push, CART_MASS, timePassed, width);
      && m == Motion(width / 2.0, 0.0, 0.0)
      && Updated([Sample(width / 2.0, Finite(0.0))], m.x, EffectiveForce(push, m.velocity), width)
         == [Sample(width / 2.0, Finite(0.0))]
  {
    PushZeroOutsideBox(mouseX, mouseY, width / 2.0, width * CART_WIDTH, height * CART_HEIGHT,
                       height / 2.0, height / 5.0, HITBOX_RATIO, PUSH_FORCE);
  }
}
