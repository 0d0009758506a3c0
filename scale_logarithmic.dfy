/**
 * The logarithmic scale: the data domain and its least non-zero value, the
 * `ticks.min`/`ticks.max` overrides, the widening of a degenerate domain to
 * the powers of ten a decade either side, the ticks laid out after the
 * (opaque) generator, and the pixel of a value, in particular at the zero end
 * of the axis.
 */
module Logarithmic {
  import opened Js
  import ScaleData
  import LinearBase
  import Linear

  /** The `options.ticks` entries the logarithmic scale reads; `None` is undefined. */
  datatype LogTickOptions = LogTickOptions(min: Option<real>, max: Option<real>, reverse: bool)

  /** What the tick generator is handed besides the scale itself: `{min: ticks.min, max: ticks.max}`. */
  datatype LogGeneratorOptions = LogGeneratorOptions(min: Option<real>, max: Option<real>)

  /** A computed bound as a JavaScript value: null, or a number. */
  function BoundValue(b: Option<real>): (r: Value)
    ensures r.Null? <==> b.None?
    ensures b.Some? ==> r == Num(b.value)
  {
    if b.None? then Null else Num(b.value)
  }

  // ---------------------------------------------------------------------------
  // Powers of ten

  /** `Math.pow(10, n)` for an integer `n`, exactly. */
  function Pow10(n: int): (r: real)
    ensures r > 0.0
    decreases if n >= 0 then n else -n
  {
    if n == 0 then 1.0
    else if n > 0 then 10.0 * Pow10(n - 1)
    else Pow10(n + 1) / 10.0
  }

  /** Each power of ten is ten times the one before. */
  lemma Pow10Step(n: int)
    ensures Pow10(n + 1) == 10.0 * Pow10(n)
  {
    if n < 0 {
      assert Pow10(n) == Pow10(n + 1) / 10.0;
    }
  }

  /** For `0 < v < 1`, `floor(1 / v)` is positive and shrinks when `v` grows tenfold. */
  lemma ReciprocalShrinks(v: real)
    requires 0.0 < v < 1.0
    ensures (1.0 / v).Floor >= 1
    ensures (1.0 / (v * 10.0)).Floor < (1.0 / v).Floor
  {
    var w := 1.0 / v;
    assert w * v == 1.0;
    assert w > 0.0;
    NonNegativeProduct(w, 1.0 - v);
    assert w - w * v >= 0.0;
    var u := 1.0 / (v * 10.0);
    assert u * (v * 10.0) == 1.0;
    assert (u * 10.0 - w) * v == 0.0;
    assert u * 10.0 == w;
  }

  /**
   * `Math.floor(log10(v))` for a positive `v`, computed exactly: the exponent
   * of the power of ten at or below `v`.
   */
  function FloorLog10(v: real): (n: int)
    requires v > 0.0
    ensures Pow10(n) <= v < Pow10(n + 1)
    decreases if v >= 10.0 then v.Floor else 0, if v < 1.0 then (1.0 / v).Floor else 0
  {
    if v >= 10.0 then
      var n := FloorLog10(v / 10.0);
      Pow10Step(n);
      Pow10Step(n + 1);
      n + 1
    else if v < 1.0 then
      ReciprocalShrinks(v);
      var n := FloorLog10(v * 10.0);
      Pow10Step(n - 1);
      Pow10Step(n);
      n - 1
    else
      Pow10Step(0);
      0
  }

  /**
   * `Math.pow(10, Math.floor(log10(v)) + k)`: the power of ten `k` decades
   * from the one at or below `v`. The logarithm of 0 or of a negative number
   * is not finite, and neither is the result.
   */
  function Decade(v: Value, k: int): (r: Value)
    ensures v.Num? && v.x > 0.0 ==> r == Num(Pow10(FloorLog10(v.x) + k))
    ensures !(v.Num? && v.x > 0.0) ==> r == NaN
  {
    if v.Num? && v.x > 0.0 then Num(Pow10(FloorLog10(v.x) + k)) else NaN
  }

  /** The decades either side of a positive value bracket it strictly, two decades apart. */
  lemma DecadesBracket(x: real)
    requires x > 0.0
    ensures Decade(Num(x), -1).Num? && Decade(Num(x), 1).Num?
    ensures var lo := Decade(Num(x), -1).x; var hi := Decade(Num(x), 1).x;
      10.0 * lo <= x < hi && hi == 100.0 * lo && lo < x
  {
    var n := FloorLog10(x);
    Pow10Step(n - 1);
    Pow10Step(n);
  }

  // ---------------------------------------------------------------------------
  // determineDataLimits, as a function of the datasets

  /**
   * The data domain before the tick options: the signed stacked totals (one
   * total per index, a group only for the types of bound datasets, and no
   * least non-zero value) or the plain samples.
   */
  function DataLimits(datasets: seq<ScaleData.AxisDataset>, horizontal: bool, id: string, opts: ScaleData.AxisOptions): ScaleData.Limits
  {
    if opts.stacked then
      var lim := ScaleData.StackedLimits(ScaleData.StackDatasets(datasets, horizontal, id, opts.relativePoints, ScaleData.Signed, false));
      ScaleData.Limits(lim.0, lim.1, None)
    else ScaleData.UnstackedLimits(datasets, horizontal, id)
  }

  /** `getValueOrDefault(tickOpts.min, me.min)` and likewise for max: a defined option replaces the bound. */
  function Overridden(limits: ScaleData.Limits, ticks: LogTickOptions): (r: (Value, Value))
    ensures r.0 == if ticks.min.Some? then Num(ticks.min.value) else BoundValue(limits.min)
    ensures r.1 == if ticks.max.Some? then Num(ticks.max.value) else BoundValue(limits.max)
  {
    (if ticks.min.Some? then Num(ticks.min.value) else BoundValue(limits.min),
     if ticks.max.Some? then Num(ticks.max.value) else BoundValue(limits.max))
  }

  /**
   * The last step of `determineDataLimits`: a domain with `min === max` is
   * widened, a decade either side of a non-zero value, and to [1, 10] when
   * both are 0 or null. Afterwards the bounds are never strictly equal.
   */
  function Widened(min: Value, max: Value): (r: (Value, Value))
    ensures !StrictEquals(min, max) ==> r == (min, max)
    ensures StrictEquals(min, max) && (min == Null || min == Num(0.0)) ==> r == (Num(1.0), Num(10.0))
    ensures !StrictEquals(r.0, r.1)
  {
    if !StrictEquals(min, max) then (min, max)
    else if !StrictEquals(min, Num(0.0)) && !StrictEquals(min, Null) then
      var lo := Decade(min, -1);
      var hi := Decade(max, 1);
      if min.Num? && min.x > 0.0 then DecadesBracket(min.x); (lo, hi)
      else (lo, hi)
    else (Num(1.0), Num(10.0))
  }

  /** The domain `determineDataLimits` leaves in `min` and `max`. */
  function LogRange(limits: ScaleData.Limits, ticks: LogTickOptions): (Value, Value)
  {
    var b := Overridden(limits, ticks);
    Widened(b.0, b.1)
  }

  /** Explicit `ticks.min` and `ticks.max` that differ are the domain, whatever the data. */
  lemma ExplicitLogBoundsWin(limits: ScaleData.Limits, lo: real, hi: real, reverse: bool)
    requires lo != hi
    ensures LogRange(limits, LogTickOptions(Some(lo), Some(hi), reverse)) == (Num(lo), Num(hi))
  {
  }

  /** A domain of a single positive value `v` becomes the two decades around it, which contain `v` strictly. */
  lemma SingleValueBracketed(limits: ScaleData.Limits, ticks: LogTickOptions, v: real)
    requires v > 0.0
    requires Overridden(limits, ticks) == (Num(v), Num(v))
    ensures var r := LogRange(limits, ticks);
      r.0.Num? && r.1.Num? && r.0.x < v < r.1.x && 10.0 * r.0.x <= v && r.1.x == 100.0 * r.0.x
  {
    DecadesBracket(v);
  }

  /** Without data and options, or with only zeros, the domain is [1, 10]. */
  lemma EmptyOrZeroDomain(limits: ScaleData.Limits, ticks: LogTickOptions)
    requires Overridden(limits, ticks) == (Null, Null) || Overridden(limits, ticks) == (Num(0.0), Num(0.0))
    ensures LogRange(limits, ticks) == (Num(1.0), Num(10.0))
  {
  }

  /** A single negative value has no logarithm: both bounds become NaN. */
  lemma NegativeValueHasNoDecade(limits: ScaleData.Limits, ticks: LogTickOptions, v: real)
    requires v < 0.0 && Overridden(limits, ticks) == (Num(v), Num(v))
    ensures LogRange(limits, ticks) == (NaN, NaN)
  {
  }

  /**
   * Unstacked and without options, a domain of distinct sample values is
   * their exact span, and `minNotZero` is the least non-zero sample.
   */
  lemma UnstackedLogDomain(datasets: seq<ScaleData.AxisDataset>, horizontal: bool, id: string, reverse: bool)
    ensures var lim := DataLimits(datasets, horizontal, id, ScaleData.AxisOptions(false, false));
      var values := ScaleData.AxisValues(datasets, horizontal, id);
      var r := LogRange(lim, LogTickOptions(None, None, reverse));
      (lim.min.Some? && lim.min != lim.max ==>
        r == (Num(lim.min.value), Num(lim.max.value))
        && lim.min.value in values && lim.max.value in values
        && (forall x :: x in values ==> lim.min.value <= x <= lim.max.value))
      && (lim.minNotZero.Some? ==> lim.minNotZero.value != 0.0 && lim.minNotZero.value in values)
      && (forall x :: x in values && x != 0.0 ==> lim.minNotZero.Some? && lim.minNotZero.value <= x)
  {
    ScaleData.UnstackedLimitsBracket(datasets, horizontal, id);
  }

  // ---------------------------------------------------------------------------
  // The pixel of a value

  /** `log10(to) - log10(from)`, finite only when both are positive. */
  function LogDistance(log10: real -> real, from: real, to: real): (r: Option<real>)
    ensures r.Some? <==> from > 0.0 && to > 0.0
  {
    if from > 0.0 && to > 0.0 then Some(log10(to) - log10(from)) else None
  }

  /** `extent / range * offset` over logarithmic distances; not finite when either is, or the range is empty. */
  function LogPixels(extent: real, range: Option<real>, offset: Option<real>): (r: Option<real>)
    ensures r.Some? <==> range.Some? && offset.Some? && range.value != 0.0
  {
    if range.Some? && offset.Some? && range.value != 0.0 then Some(Linear.ToPixels(extent, range.value, offset.value)) else None
  }

  /** A logarithm that grows with its argument. */
  ghost predicate Increasing(log10: real -> real)
  {
    forall x: real, y: real :: 0.0 < x < y ==> log10(x) < log10(y)
  }

  // ---------------------------------------------------------------------------
  // The scale object

  class LogarithmicScale {
    const id: string
    const horizontal: bool
    const options: ScaleData.AxisOptions
    const tickOptions: LogTickOptions
    var min: Value
    var max: Value
    var minNotZero: Option<real>
    var start: real
    var end: real
    var ticks: seq<real>
    var tickValues: seq<real>
    /** The box and padding the layout assigns; the layout itself is not part of this model. */
    var left: real
    var top: real
    var bottom: real
    var width: real
    var height: real
    var paddingLeft: real
    var paddingRight: real
    var paddingTop: real
    var paddingBottom: real

    constructor(id: string, horizontal: bool, options: ScaleData.AxisOptions, tickOptions: LogTickOptions)
      ensures this.id == id && this.horizontal == horizontal
      ensures this.options == options && this.tickOptions == tickOptions
      ensures min == Null && max == Null && minNotZero.None? && ticks == [] && tickValues == []
    {
      this.id := id;
      this.horizontal := horizontal;
      this.options := options;
      this.tickOptions := tickOptions;
      min, max, minNotZero := Null, Null, None;
      start, end := 0.0, 0.0;
      ticks, tickValues := [], [];
      left, top, bottom, width, height := 0.0, 0.0, 0.0, 0.0, 0.0;
      paddingLeft, paddingRight, paddingTop, paddingBottom := 0.0, 0.0, 0.0, 0.0;
    }

    /**
     * `determineDataLimits`: the running extremes (and least non-zero value)
     * of the samples, or of the signed stacked totals; then the tick options
     * and the widening of a degenerate domain.
     */
    method DetermineDataLimits(datasets: seq<ScaleData.AxisDataset>)
      modifies this`min, this`max, this`minNotZero
      ensures (min, max) == LogRange(DataLimits(datasets, horizontal, id, options), tickOptions)
      ensures minNotZero == DataLimits(datasets, horizontal, id, options).minNotZero
    {
      min, max, minNotZero := Null, Null, None;
      if options.stacked {
        var st := ScaleData.ScanStacked(datasets, horizontal, id, options.relativePoints, ScaleData.Signed, false);
        var lo, hi := ScaleData.CombineGroups(st);
        min, max := BoundValue(lo), BoundValue(hi);
      } else {
        var lim := ScaleData.ScanUnstacked(datasets, horizontal, id);
        min, max, minNotZero := BoundValue(lim.min), BoundValue(lim.max), lim.minNotZero;
      }

      if tickOptions.min.Some? {
        min := Num(tickOptions.min.value);
      }
      if tickOptions.max.Some? {
        max := Num(tickOptions.max.value);
      }

      if StrictEquals(min, max) {
        if !StrictEquals(min, Num(0.0)) && !StrictEquals(min, Null) {
          min := Decade(min, -1);
          max := Decade(max, 1);
        } else {
          min := Num(1.0);
          max := Num(10.0);
        }
      }
    }

    /**
     * `buildTicks`: the generator's ticks, reversed on a vertical axis; the
     * range becomes their extremes, and `reverse` flips the ticks and the
     * ends of the axis.
     */
    method BuildTicks(generator: (LogGeneratorOptions, Value, Value) -> seq<real>)
      requires generator(LogGeneratorOptions(tickOptions.min, tickOptions.max), min, max) != []
      modifies this`ticks, this`min, this`max, this`start, this`end
      ensures var generated := generator(LogGeneratorOptions(tickOptions.min, tickOptions.max), old(min), old(max));
        ticks == LinearBase.OrderedTicks(generated, !horizontal, tickOptions.reverse)
        && min == Num(ScaleData.MinOf(generated).value) && max == Num(ScaleData.MaxOf(generated).value)
        && (tickOptions.reverse ==> start == max.x && end == min.x)
        && (!tickOptions.reverse ==> start == min.x && end == max.x)
    {
      var generationOptions := LogGeneratorOptions(tickOptions.min, tickOptions.max);
      var generated := generator(generationOptions, min, max);
      ticks := generated;
      if !horizontal {
        ticks := Reverse(ticks);
      }
      LinearBase.ExtremesIgnoreOrder(generated);
      var hi := ScaleData.MaxOf(ticks);
      var lo := ScaleData.MinOf(ticks);
      max, min := Num(hi.value), Num(lo.value);
      if tickOptions.reverse {
        ticks := Reverse(ticks);
        start := hi.value;
        end := lo.value;
      } else {
        start := lo.value;
        end := hi.value;
      }
    }

    /** `convertTicksToLabels`: keeps a copy of the tick values for `getPixelForTick`. */
    method ConvertTicksToLabels()
      modifies this`tickValues
      ensures tickValues == ticks
    {
      tickValues := ticks;
    }

    /** `innerDimension`: the box along the axis less its padding. */
    function Inner(): real
      reads this
    {
      if horizontal then width - (paddingLeft + paddingRight) else height - (paddingTop + paddingBottom)
    }

    /** A vertical axis starting at 0, not reversed: 0 sits at the bottom of the box. */
    predicate ZeroAtBottom()
      reads this
    {
      !horizontal && start == 0.0 && !tickOptions.reverse
    }

    /** A vertical reversed axis ending at 0: 0 sits at the top of the box. */
    predicate ZeroAtTop()
      reads this
    {
      !horizontal && end == 0.0 && tickOptions.reverse
    }

    /**
     * `getPixelForValue` with the logarithm `log10`. Where the source takes
     * the logarithm of 0, of a negative number or of a null `minNotZero`, or
     * divides by an empty range, the pixel is not finite (`None`). The value
     * 0 at the start of an axis, and `minNotZero` just after it, get fixed
     * places at the edge of the box.
     */
    function GetPixelForValue(value: real, log10: real -> real): (r: Option<real>)
      reads this
      ensures horizontal && value == 0.0 ==> r == Some(left + paddingLeft)
      ensures ZeroAtBottom() && value == 0.0 ==> r == Some(bottom - paddingBottom)
      ensures ZeroAtBottom() && value != 0.0 && minNotZero == Some(value) ==> r == Some(bottom - paddingBottom - Inner() * 0.02)
      ensures ZeroAtTop() && value == 0.0 ==> r == Some(top + paddingTop)
      ensures ZeroAtTop() && value != 0.0 && minNotZero == Some(value) ==> r == Some(top + paddingTop + Inner() * 0.02)
    {
      var inner := Inner();
      if horizontal then
        if value == 0.0 then Some(left + paddingLeft)
        else
          var p := LogPixels(inner, LogDistance(log10, start, end), LogDistance(log10, start, value));
          if p.None? then None else Some(left + p.value + paddingLeft)
      else if start == 0.0 && !tickOptions.reverse then
        if value == start then Some(bottom - paddingBottom)
        else if minNotZero == Some(value) then Some(bottom - paddingBottom - inner * 0.02)
        else if minNotZero.None? then None
        else
          var m := minNotZero.value;
          var p := LogPixels(inner * 0.98, LogDistance(log10, m, end), LogDistance(log10, m, value));
          if p.None? then None else Some(bottom - paddingBottom - inner * 0.02 - p.value)
      else if end == 0.0 && tickOptions.reverse then
        if value == end then Some(top + paddingTop)
        else if minNotZero == Some(value) then Some(top + paddingTop + inner * 0.02)
        else if minNotZero.None? then None
        else
          var m := minNotZero.value;
          var p := LogPixels(inner * 0.98, LogDistance(log10, m, start), LogDistance(log10, m, value));
          if p.None? then None else Some(top + paddingTop + inner * 0.02 + p.value)
      else
        var p := LogPixels(inner, LogDistance(log10, start, end), LogDistance(log10, start, value));
        if p.None? then None else Some(bottom - paddingBottom - p.value)
    }

    /** `getPixelForTick`: the pixel of the copied tick value; not finite past the ticks. */
    function GetPixelForTick(index: int, log10: real -> real): (r: Option<real>)
      reads this
      ensures !(0 <= index < |tickValues|) ==> r.None?
      ensures 0 <= index < |tickValues| && tickValues == ticks ==> r == GetPixelForValue(ticks[index], log10)
    {
      if 0 <= index < |tickValues| then GetPixelForValue(tickValues[index], log10) else None
    }

    /**
     * On a horizontal axis of positive ends, and on a vertical one away from
     * zero, the start of the axis maps to the near edge of the padded box and
     * the end to the far edge.
     */
    lemma LogEndsAtEdges(log10: real -> real)
      requires 0.0 < start && 0.0 < end && log10(start) != log10(end)
      requires !ZeroAtTop()
      ensures horizontal ==>
        GetPixelForValue(start, log10) == Some(left + paddingLeft)
        && GetPixelForValue(end, log10) == Some(left + Inner() + paddingLeft)
      ensures !horizontal ==>
        GetPixelForValue(start, log10) == Some(bottom - paddingBottom)
        && GetPixelForValue(end, log10) == Some(bottom - paddingBottom - Inner())
    {
      var range := log10(end) - log10(start);
      Linear.FullSpans(Inner(), range);
      assert LogDistance(log10, start, start) == Some(0.0);
      assert LogDistance(log10, start, end) == Some(range);
    }

    /**
     * A vertical axis from 0 reserves the bottom 2% of the box for the step
     * from 0 to `minNotZero`; the end of the axis maps to the top edge.
     */
    lemma ZeroAtBottomSpansBox(log10: real -> real)
      requires ZeroAtBottom() && minNotZero.Some?
      requires 0.0 < minNotZero.value < end && log10(minNotZero.value) != log10(end)
      ensures GetPixelForValue(end, log10) == Some(bottom - paddingBottom - Inner())
    {
      var m := minNotZero.value;
      var range := log10(end) - log10(m);
      Linear.FullSpans(Inner() * 0.98, range);
      assert LogDistance(log10, m, end) == Some(range);
      assert Inner() * 0.02 + Inner() * 0.98 == Inner();
    }

    /**
     * On a reversed vertical axis ending at 0, the 2% next to the top edge is
     * the step from 0 to `minNotZero`; the start of the axis maps to the
     * bottom of the box.
     */
    lemma ZeroAtTopSpansBox(log10: real -> real)
      requires ZeroAtTop() && minNotZero.Some?
      requires 0.0 < minNotZero.value < start && log10(minNotZero.value) != log10(start)
      ensures GetPixelForValue(start, log10) == Some(top + paddingTop + Inner())
    {
      var m := minNotZero.value;
      var range := log10(start) - log10(m);
      Linear.FullSpans(Inner() * 0.98, range);
      assert LogDistance(log10, m, start) == Some(range);
      assert Inner() * 0.02 + Inner() * 0.98 == Inner();
    }

    /**
     * With a growing logarithm, on a vertical axis from 0 the pixels keep the
     * order of the values: 0 lowest, then `minNotZero`, then every larger value.
     */
    lemma ZeroAtBottomKeepsOrder(log10: real -> real, v: real)
      requires Increasing(log10) && ZeroAtBottom() && Inner() >= 0.0
      requires minNotZero.Some? && 0.0 < minNotZero.value < end && minNotZero.value <= v
      ensures GetPixelForValue(v, log10).Some?
      ensures GetPixelForValue(minNotZero.value, log10).value <= GetPixelForValue(0.0, log10).value
      ensures GetPixelForValue(v, log10).value <= GetPixelForValue(minNotZero.value, log10).value
    {
      var m := minNotZero.value;
      var inner := Inner();
      NonNegativeProduct(inner, 0.02);
      NonNegativeProduct(inner, 0.98);
      if v != m {
        assert log10(m) < log10(end) && log10(m) < log10(v);
        var range := log10(end) - log10(m);
        Linear.PixelsMonotone(inner * 0.98, range, 0.0, log10(v) - log10(m));
        Linear.FullSpans(inner * 0.98, range);
      }
    }
  }
}
