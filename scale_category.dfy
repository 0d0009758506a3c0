/**
 * The category scale: the labels it shows, the index range the `ticks.min`
 * and `ticks.max` options select, the ticks as a slice of the labels, and the
 * evenly spaced slots between values and pixels.
 */
module Category {
  import opened Js
  import Linear

  /** The chart data the category scale reads: `labels`, and `xLabels`/`yLabels` when defined. */
  datatype CategoryData = CategoryData(labels: seq<Value>, xLabels: Option<seq<Value>>, yLabels: Option<seq<Value>>)

  /** `options.ticks.min`, `options.ticks.max` (`None`: undefined) and `options.gridLines.offsetGridLines`. */
  datatype CategoryOptions = CategoryOptions(min: Option<Value>, max: Option<Value>, offsetGridLines: bool)

  /** `labels[i]`: undefined (`None`) outside the array. */
  function At(labels: seq<Value>, i: int): (r: Option<Value>)
    ensures r.Some? <==> 0 <= i < |labels|
    ensures r.Some? ==> r.value == labels[i]
  {
    if 0 <= i < |labels| then Some(labels[i]) else None
  }

  /**
   * An end of the index range: the index of the first label strictly equal to
   * the option when there is one, else the default.
   */
  function EndIndex(labels: seq<Value>, option: Option<Value>, default: int): (i: int)
    ensures option.None? || IndexOf(labels, option.value) == -1 ==> i == default
    ensures option.Some? && IndexOf(labels, option.value) != -1 ==>
      0 <= i < |labels| && StrictEquals(labels[i], option.value)
      && forall j :: 0 <= j < i ==> !StrictEquals(labels[j], option.value)
  {
    if option.None? then default
    else
      var found := IndexOf(labels, option.value);
      if found != -1 then found else default
  }

  /** With labels to choose from, both ends of the range name a label, and without options they are the first and the last. */
  lemma EndsNameLabels(labels: seq<Value>, options: CategoryOptions)
    requires labels != []
    ensures var lo := EndIndex(labels, options.min, 0);
      var hi := EndIndex(labels, options.max, |labels| - 1);
      0 <= lo < |labels| && 0 <= hi < |labels|
      && At(labels, lo).Some? && At(labels, hi).Some?
      && (options.min.None? ==> lo == 0) && (options.max.None? ==> hi == |labels| - 1)
  {
  }

  /** `buildTicks`: all the labels for the full range, else the slice from `minIndex` to `maxIndex` inclusive. */
  function TicksFor(labels: seq<Value>, minIndex: int, maxIndex: int): seq<Value>
  {
    if minIndex == 0 && maxIndex == |labels| - 1 then labels else Slice(labels, minIndex, maxIndex + 1)
  }

  /**
   * Over a range of label indices, the ticks are exactly the labels from the
   * first index to the last, and none when the first comes after the last.
   */
  lemma TicksAreLabelRange(labels: seq<Value>, minIndex: int, maxIndex: int)
    requires 0 <= minIndex < |labels| && 0 <= maxIndex < |labels|
    ensures minIndex <= maxIndex ==> TicksFor(labels, minIndex, maxIndex) == labels[minIndex..maxIndex + 1]
    ensures maxIndex < minIndex ==> TicksFor(labels, minIndex, maxIndex) == []
  {
  }

  /** Over a range of label indices, the tick at `index - minIndex` is the label at `index`. */
  lemma TickOfIndexIsLabel(labels: seq<Value>, minIndex: int, maxIndex: int, index: int)
    requires 0 <= minIndex <= index <= maxIndex < |labels|
    ensures At(TicksFor(labels, minIndex, maxIndex), index - minIndex) == Some(labels[index])
  {
    TicksAreLabelRange(labels, minIndex, maxIndex);
  }

  /**
   * `Math.max(count - (offsetGridLines ? 0 : 1), 1)`: how many slots the
   * box is divided into for `count` values, at least one.
   */
  function SlotCount(count: int, offsetGridLines: bool): (n: int)
    ensures n >= 1
    ensures var span := count - (if offsetGridLines then 0 else 1);
      n == if span >= 1 then span else 1
  {
    var span := count - (if offsetGridLines then 0 else 1);
    if span >= 1 then span else 1
  }

  /** A quotient by a divisor above 1 is smaller in size than the dividend. */
  lemma SmallQuotient(e: real, d: real)
    requires d > 1.0 && -0.5 < e <= 0.5
    ensures -0.5 < e / d < 0.5
  {
    var q := e / d;
    assert q * d == e;
    if q >= 0.0 {
      NonNegativeProduct(q, d - 1.0);
      assert q * d - q >= 0.0;
    } else {
      NonNegativeProduct(-q, d - 1.0);
      assert -q * d + q >= 0.0;
    }
  }

  /**
   * Slot `k`'s rounded pixel offset (with half a slot added, or not), read
   * back with the same half slot removed, is slot `k` again when a slot is
   * more than a pixel wide: at or before the start only for `k = 0`, and
   * otherwise rounding to `k`.
   */
  lemma SlotRoundTrip(slot: real, k: int, h: real)
    requires slot > 1.0 && k >= 0 && (h == 0.0 || h == slot / 2.0)
    ensures var p := Round(slot * k as real + h) as real - h;
      (p <= 0.0 ==> k == 0) && (p > 0.0 ==> Round(p / slot) == k)
  {
    var x := slot * k as real + h;
    var e := Round(x) as real - x;
    var p := Round(x) as real - h;
    assert p == slot * k as real + e;
    if k >= 1 {
      NonNegativeProduct(slot, k as real - 1.0);
      assert slot * k as real >= slot;
    }
    SmallQuotient(e, slot);
    if p > 0.0 {
      assert p / slot == k as real + e / slot;
    }
  }

  /** A positive number over a positive one is positive. */
  lemma PositiveQuotient(a: real, d: real)
    requires a > 0.0 && d != 0.0
    ensures d > 0.0 ==> a / d > 0.0
  {
    if d > 0.0 {
      var q := a / d;
      assert q * d == a;
      if q <= 0.0 {
        NonNegativeProduct(-q, d);
      }
    }
  }

  class CategoryScale {
    const horizontal: bool
    const options: CategoryOptions
    var minIndex: int
    var maxIndex: int
    var min: Option<Value>
    var max: Option<Value>
    var ticks: seq<Value>
    /** The box the layout assigns; the layout itself is not part of this model. */
    var left: real
    var top: real
    var bottom: real
    var width: real
    var height: real

    constructor(horizontal: bool, options: CategoryOptions)
      ensures this.horizontal == horizontal && this.options == options
      ensures ticks == [] && min.None? && max.None?
    {
      this.horizontal := horizontal;
      this.options := options;
      minIndex, maxIndex := 0, -1;
      min, max := None, None;
      ticks := [];
      left, top, bottom, width, height := 0.0, 0.0, 0.0, 0.0, 0.0;
    }

    /** `getLabels`: `xLabels` on a horizontal axis, `yLabels` on a vertical one, when defined; else `labels`. */
    function GetLabels(data: CategoryData): (r: seq<Value>)
      ensures horizontal && data.xLabels.Some? ==> r == data.xLabels.value
      ensures !horizontal && data.yLabels.Some? ==> r == data.yLabels.value
      ensures (if horizontal then data.xLabels else data.yLabels).None? ==> r == data.labels
    {
      var own := if horizontal then data.xLabels else data.yLabels;
      if own.Some? then own.value else data.labels
    }

    /**
     * `determineDataLimits`: the whole label list, narrowed at an end to the
     * label equal to `ticks.min`/`ticks.max` when there is one; `min` and
     * `max` are the labels at the two ends.
     */
    method DetermineDataLimits(data: CategoryData)
      modifies this`minIndex, this`maxIndex, this`min, this`max
      ensures var labels := GetLabels(data);
        minIndex == EndIndex(labels, options.min, 0)
        && maxIndex == EndIndex(labels, options.max, |labels| - 1)
        && min == At(labels, minIndex) && max == At(labels, maxIndex)
    {
      var labels := GetLabels(data);
      minIndex := 0;
      maxIndex := |labels| - 1;
      var findIndex: int;

      if options.min.Some? {
        findIndex := IndexOf(labels, options.min.value);
        minIndex := if findIndex != -1 then findIndex else minIndex;
      }

      if options.max.Some? {
        findIndex := IndexOf(labels, options.max.value);
        maxIndex := if findIndex != -1 then findIndex else maxIndex;
      }

      min := At(labels, minIndex);
      max := At(labels, maxIndex);
    }

    /** `buildTicks`: the labels of the selected range. */
    method BuildTicks(data: CategoryData)
      modifies this`ticks
      ensures ticks == TicksFor(GetLabels(data), minIndex, maxIndex)
    {
      var labels := GetLabels(data);
      ticks := if minIndex == 0 && maxIndex == |labels| - 1 then labels else Slice(labels, minIndex, maxIndex + 1);
    }

    /**
     * `getLabelForIndex`: the tick at the index relative to `minIndex`, except
     * on a vertical axis with `yLabels`, where it is the data value itself
     * (`getRightValue` of the raw point, handed in as `rightValue`).
     */
    function GetLabelForIndex(data: CategoryData, index: int, rightValue: Value): (r: Option<Value>)
      reads this
      ensures data.yLabels.Some? && !horizontal ==> r == Some(rightValue)
      ensures !(data.yLabels.Some? && !horizontal) ==>
        (r.Some? <==> minIndex <= index < minIndex + |ticks|)
        && (r.Some? ==> r.value == ticks[index - minIndex])
    {
      if data.yLabels.Some? && !horizontal then Some(rightValue)
      else At(ticks, index - minIndex)
    }

    /** Whether half a slot is added to move a value to the middle of its slot. */
    predicate HalfSlot(includeOffset: bool)
      reads this
    {
      if horizontal then (options.offsetGridLines && includeOffset) || (maxIndex == minIndex && includeOffset)
      else options.offsetGridLines && includeOffset
    }

    /** The index a value is drawn at: a given index, else (when it is NaN) the position of the value among the labels. */
    function ResolvedIndex(data: CategoryData, value: Option<Value>, index: Option<int>): (r: Option<int>)
      ensures index.Some? ==> r == index
      ensures index.None? && r.Some? ==>
        (value.Some? && 0 <= r.value < |GetLabels(data)| && StrictEquals(GetLabels(data)[r.value], value.value))
    {
      if value.Some? && index.None? then
        var idx := IndexOf(GetLabels(data), value.value);
        if idx != -1 then Some(idx) else index
      else index
    }

    /**
     * `getPixelForValue`: the box is cut into `SlotCount` equal slots over
     * `minIndex..maxIndex`; a value sits `index - minIndex` slots in (plus
     * half a slot to centre it), rounded to a whole pixel. An index that stays
     * NaN gives no pixel.
     */
    function GetPixelForValue(data: CategoryData, value: Option<Value>, index: Option<int>, includeOffset: bool): (r: Option<real>)
      reads this
      ensures r.Some? <==> ResolvedIndex(data, value, index).Some?
    {
      var offsetAmt := SlotCount(maxIndex + 1 - minIndex, options.offsetGridLines) as real;
      var i := ResolvedIndex(data, value, index);
      if i.None? then None
      else
        var extent := if horizontal then width else height;
        var half := if HalfSlot(includeOffset) then extent / offsetAmt / 2.0 else 0.0;
        var offset := Linear.ToPixels(extent, offsetAmt, (i.value - minIndex) as real) + half;
        Some((if horizontal then left else top) + Round(offset) as real)
    }

    /** `getPixelForTick`: the pixel of the tick's own index, `index + minIndex`. */
    function GetPixelForTick(data: CategoryData, index: int, includeOffset: bool): (r: Option<real>)
      reads this
      ensures r.Some?
    {
      GetPixelForValue(data, At(ticks, index), Some(index + minIndex), includeOffset)
    }

    /**
     * `getValueForPixel`: how many slots (of `ticks.length` values) the pixel
     * lies from the start of the box, rounded; 0 at or before the start. A
     * box of no extent has no slots to count.
     */
    function GetValueForPixel(pixel: real): (r: Option<int>)
      reads this
      ensures var offsetAmt := SlotCount(|ticks|, options.offsetGridLines) as real;
        var slot := (if horizontal then width else height) / offsetAmt;
        var p := pixel - (if horizontal then left else top) - (if options.offsetGridLines then slot / 2.0 else 0.0);
        (p <= 0.0 ==> r == Some(0))
        && (p > 0.0 && slot > 0.0 ==> r.Some? && r.value >= 0)
        && (p > 0.0 && slot == 0.0 ==> r.None?)
    {
      var offsetAmt := SlotCount(|ticks|, options.offsetGridLines) as real;
      var valueDimension := (if horizontal then width else height) / offsetAmt;
      var p := pixel - (if horizontal then left else top);
      var p' := if options.offsetGridLines then p - valueDimension / 2.0 else p;
      if p' <= 0.0 then Some(0)
      else if valueDimension == 0.0 then None
      else
        PositiveQuotient(p', valueDimension);
        Some(Round(p' / valueDimension))
    }

    /** `getBasePixel`: bars grow from the bottom edge of the box, whatever the orientation. */
    function GetBasePixel(): (r: real)
      reads this
      ensures r == bottom
    {
      bottom
    }

    /** Without the half-slot offset, the first value of the range sits at the start of the box. */
    lemma FirstIndexAtStart(data: CategoryData)
      requires !HalfSlot(false)
      ensures GetPixelForValue(data, None, Some(minIndex), false) == Some((if horizontal then left else top) + Round(0.0) as real)
    {
    }

    /**
     * With a slot per gap between values (no offset grid lines), the last
     * value of a range of two or more sits at the far edge of the box.
     */
    lemma LastIndexAtEnd(data: CategoryData)
      requires !options.offsetGridLines && maxIndex > minIndex
      ensures GetPixelForValue(data, None, Some(maxIndex), false)
        == Some((if horizontal then left else top) + Round(if horizontal then width else height) as real)
    {
      var extent := if horizontal then width else height;
      var n := (maxIndex - minIndex) as real;
      Linear.FullSpans(extent, n);
    }

    /** Later indices never sit before earlier ones. */
    lemma PixelsFollowIndices(data: CategoryData, i: int, j: int, includeOffset: bool)
      requires i <= j && (if horizontal then width else height) >= 0.0
      ensures GetPixelForValue(data, None, Some(i), includeOffset).value <= GetPixelForValue(data, None, Some(j), includeOffset).value
    {
      var extent := if horizontal then width else height;
      var n := SlotCount(maxIndex + 1 - minIndex, options.offsetGridLines) as real;
      var half := if HalfSlot(includeOffset) then extent / n / 2.0 else 0.0;
      Linear.PixelsMonotone(extent, n, (i - minIndex) as real, (j - minIndex) as real);
      RoundMonotone(Linear.ToPixels(extent, n, (i - minIndex) as real) + half, Linear.ToPixels(extent, n, (j - minIndex) as real) + half);
    }

    /**
     * Once the ticks are the labels of the range, reading back the pixel of
     * the value `k` slots into the range gives `k`, provided a slot is more
     * than a pixel wide and the half-slot offset is used exactly when the grid
     * lines are offset.
     */
    lemma SlotsRoundTrip(data: CategoryData, k: int)
      requires |ticks| == maxIndex - minIndex + 1 && 0 <= k < |ticks|
      requires (if horizontal then width else height) / SlotCount(|ticks|, options.offsetGridLines) as real > 1.0
      requires !options.offsetGridLines ==> maxIndex != minIndex
      ensures GetValueForPixel(GetPixelForValue(data, None, Some(minIndex + k), options.offsetGridLines).value) == Some(k)
    {
      var extent := if horizontal then width else height;
      var n := SlotCount(|ticks|, options.offsetGridLines) as real;
      var slot := extent / n;
      var h := if options.offsetGridLines then slot / 2.0 else 0.0;
      assert HalfSlot(options.offsetGridLines) == options.offsetGridLines;
      assert Linear.ToPixels(extent, n, k as real) == slot * k as real;
      SlotRoundTrip(slot, k, h);
    }
  }
}
