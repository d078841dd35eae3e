/**
 The force/position sample log ("histogram") of the cart simulator.

 The log is an ordered sequence of samples (position, value), seeded with one
 sample and updated once per animation frame by four rules tried in order:
 a repeated position is ignored, an off-screen position is ignored, a third
 consecutive equal value overwrites the position of the last sample, and
 anything else is appended.
 */
module SampleLog {

  /** A JavaScript number as far as the log can tell: a finite value, or NaN. */
  datatype JsNumber = Finite(value: real) | NaN

  /** JavaScript `==` on numbers: NaN is equal to nothing, not even itself. */
  predicate JsEquals(a: JsNumber, b: JsNumber): (r: bool)
    ensures r ==> a == b
    ensures a == NaN || b == NaN ==> !r
    ensures a == b && a.Finite? ==> r
  {
    a.Finite? && b.Finite? && a.value == b.value
  }

  /** One stored point of the plotted curve. */
  datatype Sample = Sample(x: real, y: JsNumber)

  /** No three consecutive samples have values that are equal under `==`. */
  ghost predicate NoTripleRun(h: seq<Sample>)
  {
    forall i :: 0 <= i < |h| - 2 ==> !(JsEquals(h[i].y, h[i + 2].y) && JsEquals(h[i + 1].y, h[i + 2].y))
  }

  /** The log after one update with position `x` and value `y` on a canvas `width` wide. */
  function Updated(h: seq<Sample>, x: real, y: JsNumber, width: real): (r: seq<Sample>)
    requires |h| > 0
    ensures |h| <= |r| <= |h| + 1
    ensures r[..|h| - 1] == h[..|h| - 1]
  {
    var n := |h|;
    if h[n - 1].x == x then h
    else if x > width || x < 0.0 then h
    else if n > 1 && JsEquals(h[n - 1].y, y) && JsEquals(h[n - 2].y, y) then h[n - 1 := h[n - 1].(x := x)]
    else h + [Sample(x, y)]
  }

  /** A position equal to the last stored one leaves the log exactly as it was. */
  lemma UpdatedRepeatedPosition(h: seq<Sample>, x: real, y: JsNumber, width: real)
    requires |h| > 0 && h[|h| - 1].x == x
    ensures Updated(h, x, y, width) == h
  {
  }

  /** A position off the canvas leaves the log exactly as it was. */
  lemma UpdatedOffCanvas(h: seq<Sample>, x: real, y: JsNumber, width: real)
    requires |h| > 0 && (x > width || x < 0.0)
    ensures Updated(h, x, y, width) == h
  {
  }

  /** The log changes exactly when the position is new and on the canvas, the
      edges 0 and `width` included; when it changes, its last position is `x`. */
  lemma UpdatedChangesIff(h: seq<Sample>, x: real, y: JsNumber, width: real)
    requires |h| > 0
    ensures Updated(h, x, y, width) != h <==> (h[|h| - 1].x != x && 0.0 <= x <= width)
    ensures var r := Updated(h, x, y, width); r != h ==> r[|r| - 1].x == x
  {
    var r := Updated(h, x, y, width);
    if h[|h| - 1].x != x && 0.0 <= x <= width && |r| == |h| {
      assert r[|h| - 1].x == x;
    }
  }

  /** Run compression: with two stored samples both equal in value to `y`, an
      accepted update rewrites only the position of the last sample. */
  lemma UpdatedCompresses(h: seq<Sample>, x: real, y: JsNumber, width: real)
    requires |h| > 1 && JsEquals(h[|h| - 1].y, y) && JsEquals(h[|h| - 2].y, y)
    requires h[|h| - 1].x != x && 0.0 <= x <= width
    ensures var r := Updated(h, x, y, width);
      && |r| == |h|
      && r[|h| - 1] == Sample(x, h[|h| - 1].y)
      && forall i :: 0 <= i < |h| - 1 ==> r[i] == h[i]
  {
  }

  /** Outside run compression, an accepted update appends exactly `(x, y)`. */
  lemma UpdatedAppends(h: seq<Sample>, x: real, y: JsNumber, width: real)
    requires |h| > 0 && h[|h| - 1].x != x && 0.0 <= x <= width
    requires !(|h| > 1 && JsEquals(h[|h| - 1].y, y) && JsEquals(h[|h| - 2].y, y))
    ensures Updated(h, x, y, width) == h + [Sample(x, y)]
  {
  }

  /** Updating twice in a row with the same sample is the same as updating once. */
  lemma UpdatedIdempotent(h: seq<Sample>, x: real, y: JsNumber, width: real)
    requires |h| > 0
    ensures Updated(Updated(h, x, y, width), x, y, width) == Updated(h, x, y, width)
  {
    var r := Updated(h, x, y, width);
    UpdatedChangesIff(h, x, y, width);
    if r != h {
      UpdatedRepeatedPosition(r, x, y, width);
    }
  }

  /** Every update keeps "no three consecutive equal values". */
  lemma UpdatedKeepsNoTripleRun(h: seq<Sample>, x: real, y: JsNumber, width: real)
    requires |h| > 0 && NoTripleRun(h)
    ensures NoTripleRun(Updated(h, x, y, width))
  {
    var n := |h|;
    var r := Updated(h, x, y, width);
    if |r| == n + 1 {
      assert r == h + [Sample(x, y)];
      forall i | 0 <= i < |r| - 2
        ensures !(JsEquals(r[i].y, r[i + 2].y) && JsEquals(r[i + 1].y, r[i + 2].y))
      {
        if i < n - 2 {
          assert r[i] == h[i] && r[i + 1] == h[i + 1] && r[i + 2] == h[i + 2];
        } else {
          assert i == n - 2 && r[i] == h[n - 2] && r[i + 1] == h[n - 1] && r[i + 2] == Sample(x, y);
        }
      }
    } else {
      assert forall i :: 0 <= i < n ==> r[i].y == h[i].y;
    }
  }

  /** The log after a whole sequence of updates, oldest first. */
  function Replay(h: seq<Sample>, updates: seq<Sample>, width: real): (r: seq<Sample>)
    requires |h| > 0
    decreases |updates|
  {
    if updates == [] then h
    else Replay(Updated(h, updates[0].x, updates[0].y, width), updates[1..], width)
  }

  /** Over any sequence of updates the log never shrinks, grows by at most one
      sample per update, and keeps all but its last sample untouched. */
  lemma {:induction false} ReplayGrowth(h: seq<Sample>, updates: seq<Sample>, width: real)
    requires |h| > 0
    ensures var r := Replay(h, updates, width);
      |h| <= |r| <= |h| + |updates| && r[..|h| - 1] == h[..|h| - 1]
    decreases |updates|
  {
    if updates != [] {
      var h' := Updated(h, updates[0].x, updates[0].y, width);
      ReplayGrowth(h', updates[1..], width);
      var r := Replay(h, updates, width);
      assert r[..|h| - 1] == r[..|h'| - 1][..|h| - 1];
      assert h'[..|h| - 1] == h'[..|h'| - 1][..|h| - 1];
    }
  }

  /** Over any sequence of updates "no three consecutive equal values" holds. */
  lemma {:induction false} ReplayKeepsNoTripleRun(h: seq<Sample>, updates: seq<Sample>, width: real)
    requires |h| > 0 && NoTripleRun(h)
    ensures NoTripleRun(Replay(h, updates, width))
    decreases |updates|
  {
    if updates != [] {
      UpdatedKeepsNoTripleRun(h, updates[0].x, updates[0].y, width);
      ReplayKeepsNoTripleRun(Updated(h, updates[0].x, updates[0].y, width), updates[1..], width);
    }
  }

  /** While the value stays at one finite `c` and the last two stored samples
      already have value `c`, the log does not grow at all: only the position of
      its last sample moves. */
  lemma {:induction false} ReplayPlateau(h: seq<Sample>, updates: seq<Sample>, c: real, width: real)
    requires |h| > 1 && h[|h| - 1].y == Finite(c) && h[|h| - 2].y == Finite(c)
    requires forall i :: 0 <= i < |updates| ==> updates[i].y == Finite(c)
    ensures var r := Replay(h, updates, width);
      |r| == |h| && r[..|h| - 1] == h[..|h| - 1] && r[|h| - 1].y == Finite(c)
    decreases |updates|
  {
    if updates != [] {
      var h' := Updated(h, updates[0].x, updates[0].y, width);
      assert |h'| == |h| && h'[|h| - 1].y == Finite(c) && h'[|h| - 2] == h[|h| - 2];
      ReplayPlateau(h', updates[1..], c, width);
    }
  }

  /** Two consecutive samples may share a position: the overwrite can move the
      last position back onto the one before it. */
  lemma ConsecutiveEqualPositions()
    ensures Updated([Sample(1.0, Finite(5.0)), Sample(2.0, Finite(5.0))], 1.0, Finite(5.0), 10.0)
         == [Sample(1.0, Finite(5.0)), Sample(1.0, Finite(5.0))]
  {
  }

  /** Three updates with one value and distinct positions store two samples of it. */
  lemma ThreeEqualValuesStoreTwo()
    ensures Replay([Sample(50.0, Finite(0.0))],
                   [Sample(1.0, Finite(5.0)), Sample(2.0, Finite(5.0)), Sample(3.0, Finite(5.0))], 100.0)
         == [Sample(50.0, Finite(0.0)), Sample(1.0, Finite(5.0)), Sample(3.0, Finite(5.0))]
  {
  }

  /** A NaN value never counts as equal, so NaN samples are always appended. */
  lemma NaNIsNeverCompressed(h: seq<Sample>, x: real, width: real)
    requires |h| > 0 && h[|h| - 1].x != x && 0.0 <= x <= width
    ensures Updated(h, x, NaN, width) == h + [Sample(x, NaN)]
  {
  }

  /** The log of one simulation session, written in place once per frame. */
  class Histogram {
    var samples: seq<Sample>
    /** The canvas width: positions outside [0, width] are not logged. */
    const width: real

    ghost predicate Valid()
      reads this
    {
      |samples| > 0 && NoTripleRun(samples)
    }

    /** The log starts with the single sample (seedX, 0). */
    constructor (seedX: real, width: real)
      ensures Valid()
      ensures samples == [Sample(seedX, Finite(0.0))] && this.width == width
    {
      samples := [Sample(seedX, Finite(0.0))];
      this.width := width;
    }

    /** Records position `x` with value `y`. */
    method Update(x: real, y: JsNumber)
      requires Valid()
      modifies this
      ensures Valid()
      ensures samples == Updated(old(samples), x, y, width)
    {
      UpdatedKeepsNoTripleRun(samples, x, y, width);
      var n := |samples|;
      if samples[n - 1].x == x {
        return;
      }
      if x > width || x < 0.0 {
        return;
      }
      if n > 1 {
        if JsEquals(samples[n - 1].y, y) && JsEquals(samples[n - 2].y, y) {
          samples := samples[n - 1 := samples[n - 1].(x := x)];
          return;
        }
      }
      samples := samples + [Sample(x, y)];
    }
  }
}
