/**
 * `PowerGraphEngine`: the data source behind the power graph. It keeps a
 * horizontal zoom factor `scaleX` and a pan offset `offsetX` (both measured
 * in samples) over a `History`, and answers the graph view's questions: how
 * many samples are visible, which sample is at a visible position, and how
 * high the value axis reaches.
 *
 * Assigning `scaleX` or `offsetX` runs the property's `didSet` observer,
 * which clamps the stored value; an observer assigning its own property
 * does not run again, but the `scaleX` observer assigning `offsetX` does
 * run the `offsetX` observer. The methods `SetScaleX` and `SetOffsetX` are
 * those assignments, and the functions before the class give the values
 * they store in terms of the request, the old state and the history size.
 */
module GraphEngine {
  import opened Wrappers
  import opened Numerics
  import opened PowerHistory

  /**
   * `graphViewgetSampleCount()` for `count` samples at zoom `scale`: the
   * window width rounded to a whole number of samples, capped at the
   * history size.
   */
  function VisibleSampleCount(count: nat, scale: real): (n: int)
    requires scale != 0.0
    ensures n <= count
    ensures scale > 0.0 ==> n >= 0
    ensures scale >= 1.0 ==> count as real / scale - 0.5 <= n as real <= count as real / scale + 0.5
  {
    var rounded := Round(count as real / scale);
    if rounded <= count then rounded else count
  }

  /**
   * At a zoom of 1 or more the `min` with the history size never bites:
   * the visible count is just the rounded width of the window.
   */
  lemma VisibleSampleCountIsRoundedWidth(count: nat, scale: real)
    requires scale >= 1.0
    ensures VisibleSampleCount(count, scale) == Round(count as real / scale)
  {
    WidthAtMostCount(count, scale);
  }

  /** The window width `count / scale` never exceeds the history at a zoom of 1 or more. */
  lemma WidthAtMostCount(count: nat, scale: real)
    requires scale >= 1.0
    ensures 0.0 <= count as real / scale <= count as real
  {
    var w := count as real / scale;
    assert w * scale == count as real;
    assert w * (scale - 1.0) >= 0.0;
  }

  /**
   * The upper limit the `scaleX` observer allows: half the visible count,
   * divided as `Int` (truncated) before the conversion to `Double`, with the
   * visible count computed at the requested, not yet clamped, scale.
   */
  function ScaleUpperBound(count: nat, requested: real): real
    requires requested != 0.0
  {
    Half(VisibleSampleCount(count, requested)) as real
  }

  /** The value the `scaleX` observer stores for a request `requested`. */
  function ClampedScale(count: nat, requested: real): (c: real)
    requires requested != 0.0
    ensures c >= 1.0
    ensures c <= requested || c == 1.0
    ensures 1.0 <= requested <= ScaleUpperBound(count, requested) ==> c == requested
    ensures requested > ScaleUpperBound(count, requested) ==> c == Max(1.0, ScaleUpperBound(count, requested))
  {
    Max(1.0, Min(ScaleUpperBound(count, requested), requested))
  }

  /**
   * Resetting the zoom (the double-tap gesture assigns 1.0) always stores
   * 1.0, even when the history is too short for the upper limit to reach 1.
   */
  lemma ResetScaleIsOne(count: nat)
    ensures ClampedScale(count, 1.0) == 1.0
  {
  }

  /**
   * A short history rules out zooming: with fewer than four samples the
   * upper limit is at most 1, so every request stores exactly 1.
   */
  lemma ShortHistoryCannotZoom(count: nat, requested: real)
    requires count < 4 && requested != 0.0
    ensures ClampedScale(count, requested) == 1.0
  {
  }

  /**
   * Storing a scale the observer produced and assigning it again leaves it
   * as it is: the clamp is idempotent, although its upper limit depends on
   * the requested value.
   */
  lemma ClampedScaleIdempotent(count: nat, requested: real)
    requires requested != 0.0
    ensures ClampedScale(count, ClampedScale(count, requested)) == ClampedScale(count, requested)
  {
    var c := ClampedScale(count, requested);
    if c != 1.0 {
      // then c is the request or the upper limit, and both are at least 1
      assert 1.0 <= c <= requested;
      assert count as real / requested <= count as real / c by {
        DivideByLarger(count as real, c, requested);
      }
      RoundMonotone(count as real / requested, count as real / c);
      WidthAtMostCount(count, c);
      WidthAtMostCount(count, requested);
      assert ScaleUpperBound(count, requested) <= ScaleUpperBound(count, c);
      assert c <= ScaleUpperBound(count, requested);
    }
  }

  /** Dividing a non-negative amount by a larger positive number gives no more. */
  lemma DivideByLarger(a: real, small: real, large: real)
    requires a >= 0.0 && 0.0 < small <= large
    ensures a / large <= a / small
  {
    var x, y := a / large, a / small;
    assert x * large == a == y * small;
    assert x * (large - small) >= 0.0;
    assert (y - x) * small >= 0.0;
  }

  /**
   * The value the `offsetX` observer stores for a request `requested` at
   * zoom `scale`: first raised to 0, then, when the window would run past
   * the end (negative right padding), pulled back by the overshoot.
   */
  function ClampedOffset(count: nat, scale: real, requested: real): (o: real)
    requires scale != 0.0
    ensures scale >= 1.0 ==> o >= 0.0
    ensures o + count as real / scale <= count as real || o == Max(0.0, requested)
    ensures scale >= 1.0 ==> o + count as real / scale <= count as real
    ensures 0.0 <= requested <= count as real - count as real / scale ==> o == requested
    ensures requested > count as real - count as real / scale ==> o == count as real - count as real / scale
    ensures scale >= 1.0 && requested < 0.0 ==> o == 0.0
  {
    var raised := Max(0.0, requested);
    var rightPadding := count as real - count as real / scale - raised;
    if rightPadding < 0.0 then raised + rightPadding else raised
  }

  /** A stored offset assigned again is kept: the offset clamp is idempotent. */
  lemma ClampedOffsetIdempotent(count: nat, scale: real, requested: real)
    requires scale >= 1.0
    ensures ClampedOffset(count, scale, ClampedOffset(count, scale, requested)) == ClampedOffset(count, scale, requested)
  {
  }

  /**
   * The offset the `scaleX` observer requests after a zoom from `oldScale`
   * to the stored `newScale`: the old offset moved by half the change of
   * scale times the new visible width.
   */
  function ZoomedOffset(count: nat, oldScale: real, oldOffset: real, newScale: real): real
    requires newScale != 0.0
  {
    oldOffset + (newScale - oldScale) * (count as real / newScale) / 2.0
  }

  /**
   * Zooming in moves the window start right, zooming out moves it left,
   * and assigning the same scale leaves it where it is.
   */
  lemma ZoomDirection(count: nat, oldScale: real, oldOffset: real, newScale: real)
    requires count > 0 && newScale > 0.0
    ensures ZoomedOffset(count, oldScale, oldOffset, newScale) > oldOffset <==> newScale > oldScale
    ensures ZoomedOffset(count, oldScale, oldOffset, newScale) < oldOffset <==> newScale < oldScale
    ensures ZoomedOffset(count, oldScale, oldOffset, newScale) == oldOffset <==> newScale == oldScale
  {
    var width := count as real / newScale;
    assert width * newScale == count as real;
    assert width > 0.0;
  }

  /** The middle of the window `[offset, offset + count / scale]`, in samples. */
  function Midpoint(count: nat, scale: real, offset: real): real
    requires scale != 0.0
  {
    offset + count as real / scale / 2.0
  }

  /**
   * How far the window's middle moves when the `scaleX` observer recentres
   * after a zoom (before the offset clamp): `count (old - 1) (new - old) /
   * (2 old new)`.
   */
  lemma ZoomMidpointShift(count: nat, oldScale: real, oldOffset: real, newScale: real)
    requires oldScale > 0.0 && newScale > 0.0
    ensures Midpoint(count, newScale, ZoomedOffset(count, oldScale, oldOffset, newScale)) - Midpoint(count, oldScale, oldOffset)
         == count as real * (oldScale - 1.0) * (newScale - oldScale) / (2.0 * oldScale * newScale)
  {
    var n := count as real;
    var d := 2.0 * oldScale * newScale;
    var lhs := (newScale - oldScale) * (n / newScale) / 2.0 + n / newScale / 2.0 - n / oldScale / 2.0;
    assert lhs * d == n * (newScale - oldScale) * oldScale + n * oldScale - n * newScale;
    assert n * (newScale - oldScale) * oldScale + n * oldScale - n * newScale == n * (oldScale - 1.0) * (newScale - oldScale);
    assert lhs == n * (oldScale - 1.0) * (newScale - oldScale) / d;
  }

  /**
   * So the recentring keeps the middle of the window in place exactly when
   * the zoom starts from scale 1 (or does not change the scale); from any
   * other scale the window drifts.
   */
  lemma ZoomKeepsMidpointIff(count: nat, oldScale: real, oldOffset: real, newScale: real)
    requires count > 0 && oldScale > 0.0 && newScale > 0.0
    ensures Midpoint(count, newScale, ZoomedOffset(count, oldScale, oldOffset, newScale)) == Midpoint(count, oldScale, oldOffset)
        <==> oldScale == 1.0 || newScale == oldScale
  {
    ZoomMidpointShift(count, oldScale, oldOffset, newScale);
    var n := count as real;
    var d := 2.0 * oldScale * newScale;
    assert d > 0.0;
    var p := (oldScale - 1.0) * (newScale - oldScale);
    var k := n * (oldScale - 1.0) * (newScale - oldScale);
    assert k == n * p;
    if p == 0.0 {
      assert k / d == 0.0;
    } else {
      assert k != 0.0;
      assert k / d != 0.0;
    }
    assert p == 0.0 <==> (oldScale == 1.0 || newScale == oldScale);
  }

  /**
   * The offset that would keep the window's middle in place across a zoom
   * from `oldScale` to `newScale`, as the comment on the re-centring asks:
   * the old offset moved by half the change of the window width. It agrees
   * with `ZoomedOffset` only where `ZoomKeepsMidpointIff` says the middle is
   * kept; the engine itself uses `ZoomedOffset`, as the code does.
   */
  function CentredOffset(count: nat, oldScale: real, oldOffset: real, newScale: real): (o: real)
    requires oldScale != 0.0 && newScale != 0.0
    ensures Midpoint(count, newScale, o) == Midpoint(count, oldScale, oldOffset)
  {
    oldOffset + (count as real / oldScale - count as real / newScale) / 2.0
  }

  /**
   * A concrete drift: 100 samples shown at scale 2 from offset 0 (the
   * middle is sample 25), zoomed to scale 4. The observer stores scale 4
   * and offset 25, so the window is `[25, 50]` with its middle at 37.5.
   */
  lemma ZoomDriftExample()
    ensures ClampedScale(100, 4.0) == 4.0
    ensures ZoomedOffset(100, 2.0, 0.0, 4.0) == 25.0
    ensures ClampedOffset(100, 4.0, 25.0) == 25.0
    ensures Midpoint(100, 2.0, 0.0) == 25.0 && Midpoint(100, 4.0, 25.0) == 37.5
  {
  }

  /**
   * The absolute history index `graphViewgetSample` reads for the visible
   * position `x`: the offset rounded to a whole sample, plus `x`.
   */
  function HistoryIndex(offset: real, x: int): int
  {
    x + Round(offset)
  }

  /**
   * For a stored state (zoom at least 1, offset clamped) every position the
   * graph view asks for, `0 <= x < graphViewgetSampleCount()`, maps into the
   * history or at most one past its end: the two roundings can add up.
   */
  lemma HistoryIndexAtMostCount(count: nat, scale: real, offset: real, x: int)
    requires scale >= 1.0 && offset >= 0.0
    requires offset + count as real / scale <= count as real
    requires 0 <= x < VisibleSampleCount(count, scale)
    ensures 0 <= HistoryIndex(offset, x) <= count
  {
    WidthAtMostCount(count, scale);
    VisibleSampleCountIsRoundedWidth(count, scale);
  }

  /**
   * The one-past-the-end read happens: 9 samples at scale 2 panned fully
   * right gives a window of 4.5 samples from offset 4.5; both round up, so
   * the last visible position 4 reads index 9, which holds no sample.
   */
  lemma HistoryIndexPastEndExample()
    ensures ClampedScale(9, 2.0) == 2.0
    ensures ClampedOffset(9, 2.0, 100.0) == 4.5
    ensures VisibleSampleCount(9, 2.0) == 5
    ensures HistoryIndex(4.5, 4) == 9
  {
  }

  class PowerGraphEngine {
    const history: History
    var scaleX: real
    var offsetX: real
    var maxY: real

    /** What every assignment through the observers keeps. */
    ghost predicate Valid()
      reads this
    {
      scaleX >= 1.0 && offsetX >= 0.0
    }

    constructor (history: History)
      ensures this.history == history
      ensures scaleX == 1.0 && offsetX == 0.0 && maxY == 2000.0
      ensures Valid()
    {
      this.history := history;
      scaleX := 1.0;
      offsetX := 0.0;
      maxY := 2000.0;
    }

    /** `numVisibleSamples`: the width of the window, in samples. */
    function NumVisibleSamples(): (w: real)
      reads this, history
      requires scaleX != 0.0
      ensures scaleX >= 1.0 ==> 0.0 <= w <= history.Count() as real
    {
      var w := history.Count() as real / scaleX;
      if scaleX >= 1.0 then WidthAtMostCount(history.Count(), scaleX); w else w
    }

    /** `rightPadding`: negative exactly when the window runs past the end of the history. */
    function RightPadding(): (p: real)
      reads this, history
      requires scaleX != 0.0
      ensures p < 0.0 <==> offsetX + NumVisibleSamples() > history.Count() as real
    {
      history.Count() as real - NumVisibleSamples() - offsetX
    }

    /** `graphViewgetSampleCount()` */
    function GraphViewGetSampleCount(): (n: int)
      reads this, history
      requires scaleX != 0.0
      ensures n == VisibleSampleCount(history.Count(), scaleX)
      ensures n <= history.Count()
      ensures scaleX >= 1.0 ==> 0 <= n && n == Round(NumVisibleSamples())
    {
      var n := VisibleSampleCount(history.Count(), scaleX);
      if scaleX >= 1.0 then VisibleSampleCountIsRoundedWidth(history.Count(), scaleX); n else n
    }

    /**
     * `graphViewgetSample(x, resample:)`: the sample at visible position
     * `x`. A block size of 1 uses the plain lookup; any other size goes to
     * the history's resampling lookup, passed in as `resampled` because its
     * implementation is not part of this model.
     */
    function GraphViewGetSample(x: int, resample: int, resampled: (int, int) -> Option<PowerSample>): (r: Option<PowerSample>)
      reads this, history
      requires HistoryIndex(offsetX, x) >= 0
      ensures resample == 1 ==> (r.Some? <==> HistoryIndex(offsetX, x) < history.Count())
      ensures resample == 1 && r.Some? ==> r.value.value == history.data[HistoryIndex(offsetX, x)]
      ensures resample == 1 && r.Some? ==> r.value.timestamp == history.startTimestamp + HistoryIndex(offsetX, x)
      ensures resample != 1 ==> r == resampled(HistoryIndex(offsetX, x), resample)
    {
      var index := HistoryIndex(offsetX, x);
      if resample == 1 then history.GetSample(index) else resampled(index, resample)
    }

    /** `graphViewGetMaxY()`: the ceiling of the value axis, as stored. */
    function GraphViewGetMaxY(): (y: real)
      reads this
      ensures y == maxY
    {
      maxY
    }

    /** `offsetX = requested`, run through its `didSet` observer. */
    method SetOffsetX(requested: real)
      requires Valid()
      modifies this
      ensures Valid()
      ensures offsetX == ClampedOffset(history.Count(), scaleX, requested)
      ensures RightPadding() >= 0.0
      ensures scaleX == old(scaleX) && maxY == old(maxY)
      ensures unchanged(history)
    {
      offsetX := requested;
      offsetX := Max(0.0, offsetX);
      if RightPadding() < 0.0 {
        offsetX := offsetX + RightPadding();
      }
    }

    /** `scaleX = requested`, run through its `didSet` observer (which assigns `offsetX`). */
    method SetScaleX(requested: real)
      requires Valid()
      requires requested != 0.0
      modifies this
      ensures Valid()
      ensures scaleX == ClampedScale(history.Count(), requested)
      ensures offsetX == ClampedOffset(history.Count(), scaleX,
                                       ZoomedOffset(history.Count(), old(scaleX), old(offsetX), scaleX))
      ensures RightPadding() >= 0.0
      ensures maxY == old(maxY)
      ensures unchanged(history)
    {
      var oldValue := scaleX;
      scaleX := requested;
      scaleX := Max(1.0, Min(Half(GraphViewGetSampleCount()) as real, scaleX));
      // re-centre: move the offset by half the scale change times the new window width
      SetOffsetX(ZoomedOffset(history.Count(), oldValue, offsetX, scaleX));
    }

    /** `maxY = y`: a plain stored property, no observer and no clamp. */
    method SetMaxY(y: real)
      modifies this
      ensures maxY == y
      ensures scaleX == old(scaleX) && offsetX == old(offsetX)
    {
      maxY := y;
    }
  }
}
