/**
 * The linear scale: the data domain of the datasets bound to this axis
 * (stacked or not), the tick limit, the directional reversal of the ticks,
 * and the affine mapping between values and pixels.
 */
module Linear {
  import opened Js
  import opened LinearBase
  import ScaleData

  /** `tickOpts.maxTicksLimit ? tickOpts.maxTicksLimit : 11`: an unset or zero limit means 11. */
  function MaxTicksCap(opts: TickOptions): real
  {
    if opts.maxTicksLimit.Some? && opts.maxTicksLimit.value != 0.0 then opts.maxTicksLimit.value else 11.0
  }

  /** The tick font size, falling back to the global default. */
  function TickFontSize(opts: TickOptions): real
  {
    if opts.fontSize.Some? then opts.fontSize.value else DefaultFontSize
  }

  /**
   * The data domain before the range options apply: the stacked totals
   * (split by sign, a group for every dataset type) or the plain samples.
   */
  function DataBounds(datasets: seq<ScaleData.AxisDataset>, horizontal: bool, id: string, opts: ScaleData.AxisOptions): Bounds
  {
    if opts.stacked then
      var lim := ScaleData.StackedLimits(ScaleData.StackDatasets(datasets, horizontal, id, opts.relativePoints, ScaleData.SplitBySign, true));
      Bounds(lim.0, lim.1)
    else
      var lim := ScaleData.UnstackedLimits(datasets, horizontal, id);
      Bounds(lim.min, lim.max)
  }

  /** Unstacked, the domain is exactly the span of the qualifying samples, or null without any. */
  lemma UnstackedDomainIsSampleSpan(datasets: seq<ScaleData.AxisDataset>, horizontal: bool, id: string)
    ensures var b := DataBounds(datasets, horizontal, id, ScaleData.AxisOptions(false, false));
      (b.min.None? <==> ScaleData.AxisValues(datasets, horizontal, id) == [])
      && (b.min.Some? ==>
            (b.max.Some?
             && ScaleData.IsAxisValue(datasets, horizontal, id, b.min.value)
             && ScaleData.IsAxisValue(datasets, horizontal, id, b.max.value)))
      && (forall x :: ScaleData.IsAxisValue(datasets, horizontal, id, x) ==>
            b.min.Some? && b.max.Some? && b.min.value <= x <= b.max.value)
  {
    ScaleData.UnstackedLimitsBracket(datasets, horizontal, id);
    var b := DataBounds(datasets, horizontal, id, ScaleData.AxisOptions(false, false));
    if b.min.Some? {
      ScaleData.AxisValuesMembers(datasets, horizontal, id, b.min.value);
      ScaleData.AxisValuesMembers(datasets, horizontal, id, b.max.value);
    }
    forall x | ScaleData.IsAxisValue(datasets, horizontal, id, x)
      ensures b.min.Some? && b.max.Some? && b.min.value <= x <= b.max.value
    {
      ScaleData.AxisValuesMembers(datasets, horizontal, id, x);
    }
  }

  /** Stacked, the domain is null or reaches zero from both sides. */
  lemma StackedDomainReachesZero(datasets: seq<ScaleData.AxisDataset>, horizontal: bool, id: string, relativePoints: bool)
    ensures var b := DataBounds(datasets, horizontal, id, ScaleData.AxisOptions(true, relativePoints));
      (b.min.None? <==> b.max.None?) && (b.min.Some? ==> b.min.value <= 0.0 <= b.max.value)
  {
    ScaleData.StackedLinearDomainContainsZero(datasets, horizontal, id, relativePoints, true);
  }

  /** `0 <= k` keeps the order of a product. */
  lemma ScaleKeepsOrder(k: real, a: real, b: real)
    requires 0.0 <= k && a <= b
    ensures k * a <= k * b
  {
    assert k * b - k * a == k * (b - a);
  }

  /** `0 < k` keeps a strict order of a product. */
  lemma ScaleKeepsStrictOrder(k: real, a: real, b: real)
    requires 0.0 < k && a < b
    ensures k * a < k * b
  {
    assert k * b - k * a == k * (b - a);
  }

  /** `Math.ceil(h / sp)` slots of `sp` cover `h`, and one fewer would not. */
  lemma CeilSlots(h: real, sp: real)
    requires sp > 0.0
    ensures var c := Ceil(h / sp) as real; (c - 1.0) * sp < h <= c * sp
  {
    var c := Ceil(h / sp) as real;
    var x := h / sp;
    var m := sp * x;
    assert m == h;
    ScaleKeepsStrictOrder(sp, c - 1.0, x);
    var below := sp * (c - 1.0);
    assert below < h;
    assert (c - 1.0) * sp == below;
    ScaleKeepsOrder(sp, x, c);
    var above := sp * c;
    assert h <= above;
    assert c * sp == above;
  }

  function Abs(x: real): real { if x < 0.0 then -x else x }

  /** `extent / range * offset`: a distance along the axis range, in pixels. */
  function ToPixels(extent: real, range: real, offset: real): real
    requires range != 0.0
  {
    extent / range * offset
  }

  /** `range * (distance / extent)`: a distance in pixels, along the axis range. */
  function ToValues(range: real, distance: real, extent: real): real
    requires extent != 0.0
  {
    range * (distance / extent)
  }

  /** The two conversions undo each other, one way ... */
  lemma PixelsOfValues(extent: real, range: real, distance: real)
    requires range != 0.0 && extent != 0.0
    ensures ToPixels(extent, range, ToValues(range, distance, extent)) == distance
  {
    var q := distance / extent;
    var rq := range * q;
    var er := extent / range;
    assert er * rq == extent * q;
    assert extent * q == distance;
  }

  /** ... and the other. */
  lemma ValuesOfPixels(extent: real, range: real, offset: real)
    requires range != 0.0 && extent != 0.0
    ensures ToValues(range, ToPixels(extent, range, offset), extent) == offset
  {
    var er := extent / range;
    var d := er * offset;
    var q := d / extent;
    assert q == offset / range;
    assert range * q == offset;
  }

  /** Converting pixels to values distributes over a sum of distances. */
  lemma ValuesOfSum(range: real, a: real, b: real, extent: real)
    requires extent != 0.0
    ensures ToValues(range, a + b, extent) == ToValues(range, a, extent) + ToValues(range, b, extent)
  {
    assert (a + b) / extent == a / extent + b / extent;
  }

  /** Half a pixel either way is at most `|range / extent| / 2` in value. */
  lemma ValuesOfHalfPixel(range: real, t: real, extent: real)
    requires extent != 0.0 && -0.5 <= t <= 0.5
    ensures -Abs(range / extent) / 2.0 <= ToValues(range, t, extent) <= Abs(range / extent) / 2.0
  {
    var k := range / extent;
    assert ToValues(range, t, extent) == k * t;
    var a := Abs(k);
    NonNegativeProduct(a, 0.5 - t);
    NonNegativeProduct(a, t + 0.5);
    assert a * (0.5 - t) == a / 2.0 - a * t;
    assert a * (t + 0.5) == a * t + a / 2.0;
    if k < 0.0 {
      assert a * t == -(k * t);
    }
  }

  /** With extent and range of the same sign, larger offsets are further along. */
  lemma PixelsMonotone(extent: real, range: real, a: real, b: real)
    requires 0.0 < range && 0.0 <= extent && a <= b
    ensures ToPixels(extent, range, a) <= ToPixels(extent, range, b)
  {
    ScaleKeepsOrder(extent / range, a, b);
  }

  /** The whole range spans the whole extent, and the whole extent the whole range. */
  lemma FullSpans(extent: real, range: real)
    requires range != 0.0
    ensures ToPixels(extent, range, 0.0) == 0.0 && ToPixels(extent, range, range) == extent
    ensures extent != 0.0 ==> ToValues(range, 0.0, extent) == 0.0 && ToValues(range, extent, extent) == range
  {
  }

  class LinearScale {
    const id: string
    const horizontal: bool
    const options: ScaleData.AxisOptions
    const base: LinearScaleBase
    /** The box the layout assigns; the layout itself is not part of this model. */
    var left: real
    var top: real
    var bottom: real
    var width: real
    var height: real

    constructor(id: string, horizontal: bool, options: ScaleData.AxisOptions, ticks: TickOptions)
      ensures this.id == id && this.horizontal == horizontal && this.options == options
      ensures fresh(base) && base.options == ticks && base.min.None? && base.max.None?
    {
      this.id := id;
      this.horizontal := horizontal;
      this.options := options;
      base := new LinearScaleBase(ticks);
      left, top, bottom, width, height := 0.0, 0.0, 0.0, 0.0, 0.0;
    }

    /**
     * `determineDataLimits`: the domain of the datasets bound to this axis,
     * then `handleTickRangeOptions`.
     */
    method DetermineDataLimits(datasets: seq<ScaleData.AxisDataset>)
      modifies base`min, base`max
      ensures base.Range() == RangeAdjusted(DataBounds(datasets, horizontal, id, options), base.options)
    {
      base.min := None;
      base.max := None;
      if options.stacked {
        var st := ScaleData.ScanStacked(datasets, horizontal, id, options.relativePoints, ScaleData.SplitBySign, true);
        var lo, hi := ScaleData.CombineGroups(st);
        base.min, base.max := lo, hi;
      } else {
        var lim := ScaleData.ScanUnstacked(datasets, horizontal, id);
        base.min, base.max := lim.min, lim.max;
      }
      base.HandleTickRangeOptions();
    }

    /**
     * `getTickLimit`: at most the cap, and otherwise just enough ticks to keep
     * them 50 pixels apart horizontally or two font heights apart vertically.
     */
    function GetTickLimit(): (r: real)
      reads this
      requires horizontal || TickFontSize(base.options) > 0.0
      ensures r <= MaxTicksCap(base.options)
      ensures r == MaxTicksCap(base.options) || r == r.Floor as real
      ensures horizontal ==> (r - 1.0) * 50.0 < width && (r == MaxTicksCap(base.options) || width <= r * 50.0)
      ensures !horizontal ==> var spacing := 2.0 * TickFontSize(base.options);
        (r - 1.0) * spacing < height && (r == MaxTicksCap(base.options) || height <= r * spacing)
    {
      var cap := MaxTicksCap(base.options);
      if horizontal then
        Min(cap, Ceil(width / 50.0) as real)
      else
        var spacing := 2.0 * TickFontSize(base.options);
        var slots := Ceil(height / spacing) as real;
        CeilSlots(height, spacing);
        if cap <= slots then
          ScaleKeepsOrder(spacing, cap - 1.0, slots - 1.0);
          cap
        else slots
    }

    /** `handleDirectionalChanges`: a vertical axis lists its ticks from the top. */
    method HandleDirectionalChanges()
      modifies base`ticks
      ensures base.ticks == if horizontal then old(base.ticks) else Reverse(old(base.ticks))
    {
      if !horizontal {
        base.ticks := Reverse(base.ticks);
      }
    }

    /**
     * `buildTicks` of the linear base with this scale's hooks: the ticks are the
     * generated ones, reversed on a vertical axis and again under `reverse`;
     * the range is their extremes.
     */
    method BuildTicks(generator: (GeneratorOptions, Bounds) -> seq<real>)
      requires horizontal || TickFontSize(base.options) > 0.0
      requires generator(GeneratorOptionsFor(GetTickLimit(), base.options), base.Range()) != []
      modifies base`ticks, base`min, base`max, base`start, base`end
      ensures var generated := generator(GeneratorOptionsFor(old(GetTickLimit()), base.options), old(base.Range()));
        base.ticks == OrderedTicks(generated, !horizontal, base.options.reverse)
        && base.min == ScaleData.MinOf(generated) && base.max == ScaleData.MaxOf(generated)
      ensures base.min.Some? && base.max.Some?
      ensures base.options.reverse ==> base.start == base.max.value && base.end == base.min.value
      ensures !base.options.reverse ==> base.start == base.min.value && base.end == base.max.value
    {
      ghost var generated := generator(GeneratorOptionsFor(GetTickLimit(), base.options), base.Range());
      base.GenerateTicks(GetTickLimit(), generator);
      HandleDirectionalChanges();
      ExtremesIgnoreOrder(generated);
      base.SettleTicks();
      OrderedTicksExtremes(generated, !horizontal, base.options.reverse);
    }

    /** `getPixelForValue`: the affine map from the axis range onto the box; not finite when the range is empty. */
    function GetPixelForValue(value: real): (r: Option<int>)
      reads this, base
      ensures r.None? <==> base.start == base.end
    {
      var range := base.end - base.start;
      if range == 0.0 then None
      else if horizontal then Some(Round(left + ToPixels(width, range, value - base.start)))
      else Some(Round(bottom - ToPixels(height, range, value - base.start)))
    }

    /** `getValueForPixel`: the inverse affine map; not finite when the box has no extent. */
    function GetValueForPixel(pixel: real): (r: Option<real>)
      reads this, base
      ensures r.None? <==> (if horizontal then width else height) == 0.0
    {
      var innerDimension := if horizontal then width else height;
      if innerDimension == 0.0 then None
      else Some(base.start + ToValues(base.end - base.start, if horizontal then pixel - left else bottom - pixel, innerDimension))
    }

    /** `getPixelForTick`: the pixel of a numeric tick; undefined past the ticks. */
    function GetPixelForTick(index: int): (r: Option<int>)
      reads this, base
      ensures !(0 <= index < |base.ticksAsNumbers|) ==> r.None?
      ensures 0 <= index < |base.ticksAsNumbers| && base.start != base.end ==> r.Some?
    {
      if 0 <= index < |base.ticksAsNumbers| then GetPixelForValue(base.ticksAsNumbers[index]) else None
    }

    /** The start of the axis sits at the left (horizontal) or bottom (vertical) edge, the end at the other. */
    lemma PixelsAtEnds()
      requires base.start != base.end
      ensures horizontal ==>
        (GetPixelForValue(base.start) == Some(Round(left)) && GetPixelForValue(base.end) == Some(Round(left + width)))
      ensures !horizontal ==>
        (GetPixelForValue(base.start) == Some(Round(bottom)) && GetPixelForValue(base.end) == Some(Round(bottom - height)))
    {
      FullSpans(width, base.end - base.start);
      FullSpans(height, base.end - base.start);
    }

    /** The edges of the box map back to the ends of the axis. */
    lemma ValuesAtEdges()
      requires (if horizontal then width else height) != 0.0
      ensures horizontal ==>
        (GetValueForPixel(left) == Some(base.start) && GetValueForPixel(left + width) == Some(base.end))
      ensures !horizontal ==>
        (GetValueForPixel(bottom) == Some(base.start) && GetValueForPixel(bottom - height) == Some(base.end))
    {
      var range := base.end - base.start;
      if horizontal {
        assert left + width - left == width;
        assert ToValues(range, width, width) == range;
      } else {
        assert bottom - (bottom - height) == height;
        assert ToValues(range, height, height) == range;
      }
    }

    /** Larger values lie further right, or further up (smaller pixel) on a vertical axis. */
    lemma PixelsFollowValues(a: real, b: real)
      requires base.start < base.end && width >= 0.0 && height >= 0.0 && a <= b
      ensures horizontal ==> GetPixelForValue(a).value <= GetPixelForValue(b).value
      ensures !horizontal ==> GetPixelForValue(b).value <= GetPixelForValue(a).value
    {
      var range := base.end - base.start;
      if horizontal {
        PixelsMonotone(width, range, a - base.start, b - base.start);
        RoundMonotone(left + ToPixels(width, range, a - base.start), left + ToPixels(width, range, b - base.start));
      } else {
        PixelsMonotone(height, range, a - base.start, b - base.start);
        RoundMonotone(bottom - ToPixels(height, range, b - base.start), bottom - ToPixels(height, range, a - base.start));
      }
    }

    /** Pixel to value and back lands on the rounded pixel. */
    lemma PixelValuePixel(pixel: real)
      requires base.start != base.end && (if horizontal then width else height) != 0.0
      ensures GetPixelForValue(GetValueForPixel(pixel).value) == Some(Round(pixel))
    {
      var range := base.end - base.start;
      var v := GetValueForPixel(pixel).value;
      if horizontal {
        PixelsOfValues(width, range, pixel - left);
        assert v - base.start == ToValues(range, pixel - left, width);
      } else {
        PixelsOfValues(height, range, bottom - pixel);
        assert v - base.start == ToValues(range, bottom - pixel, height);
      }
    }

    /** Value to pixel and back is off by at most half a pixel's worth of value. */
    lemma ValuePixelValue(value: real)
      requires base.start != base.end && (if horizontal then width else height) != 0.0
      ensures var back := GetValueForPixel(GetPixelForValue(value).value as real).value;
        var halfPixel := Abs((base.end - base.start) / (if horizontal then width else height)) / 2.0;
        value - halfPixel <= back <= value + halfPixel
    {
      var range := base.end - base.start;
      var offset := value - base.start;
      if horizontal {
        var d := ToPixels(width, range, offset);
        var p := Round(left + d) as real;
        assert GetPixelForValue(value) == Some(Round(left + d));
        ValuesOfSum(range, d, p - (left + d), width);
        assert p - left == d + (p - (left + d));
        ValuesOfPixels(width, range, offset);
        ValuesOfHalfPixel(range, p - (left + d), width);
      } else {
        var d := ToPixels(height, range, offset);
        var p := Round(bottom - d) as real;
        assert GetPixelForValue(value) == Some(Round(bottom - d));
        ValuesOfSum(range, d, (bottom - d) - p, height);
        assert bottom - p == d + ((bottom - d) - p);
        ValuesOfPixels(height, range, offset);
        ValuesOfHalfPixel(range, (bottom - d) - p, height);
      }
    }
  }
}
