/**
 The force a pointer applies to the cart.

 The cart is a box `cartWidth` wide centred on `cartX`, resting on the track
 line at height `top + simHeight * 4/5` and reaching `cartHeight` above it.
 A pointer strictly inside the box pushes: from the left zone (the leftmost
 `cartWidth * ratio` of the box) to the right, from the right zone to the left,
 with a strength that grows linearly from 0 at the outer edge to `maxForce` at
 the inner end of the zone.
 */
module PushForce {

  /** The push for a pointer at (mouseX, mouseY); the left zone is tried first.
      It is defined everywhere: both divisors are proved positive where used. */
  function Push(mouseX: real, mouseY: real, cartX: real, cartWidth: real, cartHeight: real,
                top: real, simHeight: real, ratio: real, maxForce: real): (r: real)
    ensures r != 0.0 ==> cartX - cartWidth / 2.0 < mouseX < cartX + cartWidth / 2.0
    ensures maxForce > 0.0 ==> -maxForce < r < maxForce
  {
    var left := cartX - cartWidth / 2.0;
    var right := cartX + cartWidth / 2.0;
    var track := top + simHeight * (4.0 / 5.0);
    if mouseX > left && mouseX < right && mouseY < track && mouseY > track - cartHeight then
      if mouseX < left + cartWidth * ratio then
        PositiveQuotient(cartWidth * ratio, mouseX - left);
        ScaledFraction(maxForce, cartWidth * ratio, mouseX - left);
        0.0 + maxForce / (cartWidth * ratio / (mouseX - left))
      else if mouseX > right - cartWidth * ratio then
        PositiveQuotient(cartWidth * ratio, right - mouseX);
        ScaledFraction(maxForce, cartWidth * ratio, right - mouseX);
        0.0 - maxForce / (cartWidth * ratio / (right - mouseX))
      else
        0.0
    else
      0.0
  }

  lemma PositiveQuotient(a: real, b: real)
    requires a > b > 0.0
    ensures a / b > 1.0
  {
  }

  /** `maxForce / (span / depth)` is `maxForce` scaled by the fraction `depth / span`. */
  lemma ScaledFraction(maxForce: real, span: real, depth: real)
    requires span > depth > 0.0
    ensures maxForce / (span / depth) == maxForce * depth / span
    ensures maxForce > 0.0 ==> 0.0 < maxForce / (span / depth) < maxForce
  {
    var f := depth / span;
    assert span / depth == 1.0 / f;
    assert 0.0 < f < 1.0;
    assert maxForce / (1.0 / f) == maxForce * f;
    assert maxForce * depth / span == maxForce * f;
    if maxForce > 0.0 {
      assert 0.0 < maxForce * f < maxForce * 1.0;
    }
  }

  /** A pointer not strictly inside the cart's box exerts no force. */
  lemma PushZeroOutsideBox(mouseX: real, mouseY: real, cartX: real, cartWidth: real, cartHeight: real,
                           top: real, simHeight: real, ratio: real, maxForce: real)
    requires !(cartX - cartWidth / 2.0 < mouseX < cartX + cartWidth / 2.0)
          || !(top + simHeight * (4.0 / 5.0) - cartHeight < mouseY < top + simHeight * (4.0 / 5.0))
    ensures Push(mouseX, mouseY, cartX, cartWidth, cartHeight, top, simHeight, ratio, maxForce) == 0.0
  {
  }

  /** In the left zone the push is rightward, below `maxForce`, and linear in
      the distance of the pointer from the cart's left edge. This holds whether
      or not the pointer is also in the right zone: the left zone wins. */
  lemma PushLeftZone(mouseX: real, mouseY: real, cartX: real, cartWidth: real, cartHeight: real,
                     top: real, simHeight: real, ratio: real, maxForce: real)
    requires maxForce > 0.0
    requires cartX - cartWidth / 2.0 < mouseX < cartX + cartWidth / 2.0
    requires top + simHeight * (4.0 / 5.0) - cartHeight < mouseY < top + simHeight * (4.0 / 5.0)
    requires mouseX < cartX - cartWidth / 2.0 + cartWidth * ratio
    ensures var p := Push(mouseX, mouseY, cartX, cartWidth, cartHeight, top, simHeight, ratio, maxForce);
      0.0 < p < maxForce && p == maxForce * (mouseX - (cartX - cartWidth / 2.0)) / (cartWidth * ratio)
  {
    ScaledFraction(maxForce, cartWidth * ratio, mouseX - (cartX - cartWidth / 2.0));
  }

  /** In the right zone, outside the left zone, the push is leftward, below
      `maxForce` in size, and linear in the distance from the right edge. */
  lemma PushRightZone(mouseX: real, mouseY: real, cartX: real, cartWidth: real, cartHeight: real,
                      top: real, simHeight: real, ratio: real, maxForce: real)
    requires maxForce > 0.0
    requires cartX - cartWidth / 2.0 < mouseX < cartX + cartWidth / 2.0
    requires top + simHeight * (4.0 / 5.0) - cartHeight < mouseY < top + simHeight * (4.0 / 5.0)
    requires mouseX >= cartX - cartWidth / 2.0 + cartWidth * ratio
    requires mouseX > cartX + cartWidth / 2.0 - cartWidth * ratio
    ensures var p := Push(mouseX, mouseY, cartX, cartWidth, cartHeight, top, simHeight, ratio, maxForce);
      -maxForce < p < 0.0 && p == -(maxForce * ((cartX + cartWidth / 2.0) - mouseX) / (cartWidth * ratio))
  {
    ScaledFraction(maxForce, cartWidth * ratio, (cartX + cartWidth / 2.0) - mouseX);
  }

  /** Inside the box but in neither zone, the push is 0. */
  lemma PushMiddle(mouseX: real, mouseY: real, cartX: real, cartWidth: real, cartHeight: real,
                   top: real, simHeight: real, ratio: real, maxForce: real)
    requires mouseX >= cartX - cartWidth / 2.0 + cartWidth * ratio
    requires mouseX <= cartX + cartWidth / 2.0 - cartWidth * ratio
    ensures Push(mouseX, mouseY, cartX, cartWidth, cartHeight, top, simHeight, ratio, maxForce) == 0.0
  {
  }

  /** The two zones can overlap only when `ratio` exceeds one half. */
  lemma ZonesDisjoint(mouseX: real, cartX: real, cartWidth: real, ratio: real)
    requires cartWidth >= 0.0 && ratio <= 0.5
    ensures !(mouseX < cartX - cartWidth / 2.0 + cartWidth * ratio && mouseX > cartX + cartWidth / 2.0 - cartWidth * ratio)
  {
    assert cartWidth * ratio <= cartWidth * 0.5;
  }

  /** With ratio one half, a pointer exactly over the cart's centre exerts no force. */
  lemma PushAtCentre(mouseY: real, cartX: real, cartWidth: real, cartHeight: real,
                     top: real, simHeight: real, maxForce: real)
    ensures Push(cartX, mouseY, cartX, cartWidth, cartHeight, top, simHeight, 0.5, maxForce) == 0.0
  {
  }

  /** With non-overlapping zones, mirroring the pointer about the cart's centre
      reverses the push. */
  lemma PushMirror(mouseX: real, mouseY: real, cartX: real, cartWidth: real, cartHeight: real,
                   top: real, simHeight: real, ratio: real, maxForce: real)
    requires cartWidth >= 0.0 && ratio <= 0.5
    ensures Push(2.0 * cartX - mouseX, mouseY, cartX, cartWidth, cartHeight, top, simHeight, ratio, maxForce)
         == -Push(mouseX, mouseY, cartX, cartWidth, cartHeight, top, simHeight, ratio, maxForce)
  {
    ZonesDisjoint(mouseX, cartX, cartWidth, ratio);
    ZonesDisjoint(2.0 * cartX - mouseX, cartX, cartWidth, ratio);
  }
}
