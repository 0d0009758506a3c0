/**
 * The shared part of the numeric linear scales: turning the data extremes into
 * the axis range under the `ticks` options, laying out the ticks an (opaque)
 * generator returns, and keeping their numeric copy.
 *
 * Dafny has no class inheritance here, so the linear scale holds one of these
 * objects and calls its methods where the source relies on `super`.
 */
module LinearBase {
  import opened Js
  import ScaleData

  /** The `options.ticks` entries the linear scales read; `None` is undefined. */
  datatype TickOptions = TickOptions(
    beginAtZero: bool,
    min: Option<real>,
    max: Option<real>,
    suggestedMin: Option<real>,
    suggestedMax: Option<real>,
    reverse: bool,
    fixedStepSize: Option<real>,
    stepSize: Option<real>,
    maxTicksLimit: Option<real>,
    fontSize: Option<real>)

  /** What the tick generator is handed. */
  datatype GeneratorOptions = GeneratorOptions(maxTicks: real, min: Option<real>, max: Option<real>, stepSize: Option<real>)

  /** The scale's `min` and `max`; `None` is null. */
  datatype Bounds = Bounds(min: Option<real>, max: Option<real>)

  /** `sign(x)` of a bound that may be null: `Math.sign(null)` is 0. */
  function SignOf(b: Option<real>): int
  {
    if b.None? || b.value == 0.0 then 0 else if b.value < 0.0 then -1 else 1
  }

  /** A bound used as a number: `+null` is 0. */
  function NumberOf(b: Option<real>): real
  {
    if b.None? then 0.0 else b.value
  }

  // ---------------------------------------------------------------------------
  // handleTickRangeOptions, one step at a time

  /** `beginAtZero`: an axis entirely on one side of zero is stretched to reach it. */
  function ZeroAnchored(b: Bounds, beginAtZero: bool): (r: Bounds)
    ensures r != b <==> beginAtZero && SignOf(b.min) == SignOf(b.max) != 0
  {
    if !beginAtZero then b
    else if SignOf(b.min) < 0 && SignOf(b.max) < 0 then Bounds(b.min, Some(0.0))
    else if SignOf(b.min) > 0 && SignOf(b.max) > 0 then Bounds(Some(0.0), b.max)
    else b
  }

  /** An explicit `ticks.min`/`ticks.max` replaces a bound; a suggested one can only widen it. */
  function Overridden(b: Bounds, opts: TickOptions): (r: Bounds)
    ensures opts.min.Some? ==> r.min == opts.min
    ensures opts.min.None? && opts.suggestedMin.Some? ==>
      r.min.Some? && r.min.value <= opts.suggestedMin.value && r.min.value <= NumberOf(b.min)
      && (r.min.value == opts.suggestedMin.value || r.min.value == NumberOf(b.min))
    ensures opts.min.None? && opts.suggestedMin.None? ==> r.min == b.min
    ensures opts.max.Some? ==> r.max == opts.max
    ensures opts.max.None? && opts.suggestedMax.Some? ==>
      r.max.Some? && r.max.value >= opts.suggestedMax.value && r.max.value >= NumberOf(b.max)
      && (r.max.value == opts.suggestedMax.value || r.max.value == NumberOf(b.max))
    ensures opts.max.None? && opts.suggestedMax.None? ==> r.max == b.max
  {
    var min :=
      if opts.min.Some? then opts.min
      else if opts.suggestedMin.Some? then Some(Min(NumberOf(b.min), opts.suggestedMin.value))
      else b.min;
    var max :=
      if opts.max.Some? then opts.max
      else if opts.suggestedMax.Some? then Some(Max(NumberOf(b.max), opts.suggestedMax.value))
      else b.max;
    Bounds(min, max)
  }

  /**
   * A degenerate range (`min === max`, null included) is opened up: `max++`,
   * and `min--` unless the axis begins at zero. Afterwards the bounds differ.
   */
  function Widened(b: Bounds, beginAtZero: bool): (r: Bounds)
    ensures r.min != r.max
    ensures b.min != b.max ==> r == b
    ensures b.min == b.max ==> r.max == Some(NumberOf(b.max) + 1.0)
    ensures b.min == b.max && b.min.Some? ==> r.min.Some? && r.min.value <= b.min.value < r.max.value
    ensures b.min == b.max && beginAtZero ==> r.min == b.min
  {
    if b.min == b.max then
      Bounds(if beginAtZero then b.min else Some(NumberOf(b.min) - 1.0), Some(NumberOf(b.max) + 1.0))
    else b
  }

  /** All of `handleTickRangeOptions`. */
  function RangeAdjusted(b: Bounds, opts: TickOptions): Bounds
  {
    Widened(Overridden(ZeroAnchored(b, opts.beginAtZero), opts), opts.beginAtZero)
  }

  /**
   * `beginAtZero` on an ordered, defined range moves at most one end, outwards,
   * and the result reaches zero.
   */
  lemma ZeroAnchoredReachesZero(b: Bounds)
    requires b.min.Some? && b.max.Some? && b.min.value <= b.max.value
    ensures var r := ZeroAnchored(b, true);
      r.min.Some? && r.max.Some? && r.min.value <= 0.0 <= r.max.value
      && r.min.value <= b.min.value && b.max.value <= r.max.value
      && (r.min == b.min || r.max == b.max)
  {
  }

  /** Without explicit bounds or suggestions, a non-degenerate range passes through unchanged. */
  lemma RangeKeptWithoutOptions(b: Bounds, opts: TickOptions)
    requires !opts.beginAtZero && opts.min.None? && opts.max.None?
    requires opts.suggestedMin.None? && opts.suggestedMax.None?
    requires b.min != b.max
    ensures RangeAdjusted(b, opts) == b
  {
  }

  /** Explicit bounds that differ are exactly the range, whatever the data. */
  lemma ExplicitBoundsWin(b: Bounds, opts: TickOptions)
    requires opts.min.Some? && opts.max.Some? && opts.min != opts.max
    ensures RangeAdjusted(b, opts) == Bounds(opts.min, opts.max)
  {
  }

  /** Suggested bounds and `beginAtZero` only ever widen a defined data range. */
  lemma SuggestionsOnlyWiden(b: Bounds, opts: TickOptions)
    requires b.min.Some? && b.max.Some? && b.min.value < b.max.value
    requires opts.min.None? && opts.max.None?
    ensures var r := RangeAdjusted(b, opts);
      r.min.Some? && r.max.Some? && r.min.value <= b.min.value && b.max.value <= r.max.value
  {
    var z := ZeroAnchored(b, opts.beginAtZero);
    if opts.beginAtZero {
      ZeroAnchoredReachesZero(b);
    }
    assert z.min.Some? && z.max.Some? && z.min.value <= b.min.value && b.max.value <= z.max.value;
    var o := Overridden(z, opts);
    assert o.min.Some? && o.max.Some? && o.min.value <= b.min.value && b.max.value <= o.max.value;
    assert o.min.value < o.max.value;
  }

  // ---------------------------------------------------------------------------
  // buildTicks

  /** The generator options: at least two ticks, and `fixedStepSize` wins over `stepSize`. */
  function GeneratorOptionsFor(maxTicks: real, opts: TickOptions): (g: GeneratorOptions)
    ensures g.maxTicks >= 2.0 && g.maxTicks >= maxTicks
    ensures g.maxTicks == maxTicks || maxTicks < 2.0
    ensures g.min == opts.min && g.max == opts.max
    ensures opts.fixedStepSize.Some? ==> g.stepSize == opts.fixedStepSize
    ensures opts.fixedStepSize.None? ==> g.stepSize == opts.stepSize
  {
    GeneratorOptions(
      Max(2.0, maxTicks), opts.min, opts.max,
      if opts.fixedStepSize.Some? then opts.fixedStepSize else opts.stepSize)
  }

  /** The tick order after an optional directional reversal and an optional `reverse`. */
  function OrderedTicks(generated: seq<real>, directional: bool, reverse: bool): seq<real>
  {
    var t := if directional then Reverse(generated) else generated;
    if reverse then Reverse(t) else t
  }

  /** Two reversals cancel: the ticks keep the generator's order unless exactly one applies. */
  lemma OrderedTicksCancel(generated: seq<real>, directional: bool, reverse: bool)
    ensures OrderedTicks(generated, directional, reverse)
      == if directional == reverse then generated else Reverse(generated)
  {
    if directional && reverse {
      ReverseReverse(generated);
    }
  }

  /** The extremes of the ticks do not depend on their order. */
  lemma ExtremesIgnoreOrder(s: seq<real>)
    ensures ScaleData.MinOf(Reverse(s)) == ScaleData.MinOf(s)
    ensures ScaleData.MaxOf(Reverse(s)) == ScaleData.MaxOf(s)
  {
    ReverseMembers(s);
    ScaleData.MinOfIsLeast(s);
    ScaleData.MinOfIsLeast(Reverse(s));
    ScaleData.MaxOfIsGreatest(s);
    ScaleData.MaxOfIsGreatest(Reverse(s));
    var a, b := ScaleData.MinOf(Reverse(s)), ScaleData.MinOf(s);
    if a.Some? {
      assert a.value <= b.value && b.value <= a.value;
    }
    var c, d := ScaleData.MaxOf(Reverse(s)), ScaleData.MaxOf(s);
    if c.Some? {
      assert c.value <= d.value && d.value <= c.value;
    }
  }

  /** Every ordering of the generated ticks has the same extremes. */
  lemma OrderedTicksExtremes(generated: seq<real>, directional: bool, reverse: bool)
    ensures ScaleData.MinOf(OrderedTicks(generated, directional, reverse)) == ScaleData.MinOf(generated)
    ensures ScaleData.MaxOf(OrderedTicks(generated, directional, reverse)) == ScaleData.MaxOf(generated)
  {
    OrderedTicksCancel(generated, directional, reverse);
    ExtremesIgnoreOrder(generated);
  }

  // ---------------------------------------------------------------------------
  // The scale object

  class LinearScaleBase {
    const options: TickOptions
    var min: Option<real>
    var max: Option<real>
    var start: real
    var end: real
    var ticks: seq<real>
    var ticksAsNumbers: seq<real>
    var zeroLineIndex: int

    constructor(options: TickOptions)
      ensures this.options == options
      ensures min.None? && max.None? && ticks == [] && ticksAsNumbers == []
    {
      this.options := options;
      min, max := None, None;
      start, end := 0.0, 0.0;
      ticks, ticksAsNumbers := [], [];
      zeroLineIndex := -1;
    }

    function Range(): Bounds
      reads this
    {
      Bounds(min, max)
    }

    /** `handleTickRangeOptions`: adjusts `min` and `max` in place, step by step. */
    method HandleTickRangeOptions()
      modifies this`min, this`max
      ensures Range() == RangeAdjusted(old(Range()), options)
    {
      if options.beginAtZero {
        var minSign := SignOf(min);
        var maxSign := SignOf(max);
        if minSign < 0 && maxSign < 0 {
          max := Some(0.0);
        } else if minSign > 0 && maxSign > 0 {
          min := Some(0.0);
        }
      }

      if options.min.Some? {
        min := options.min;
      } else if options.suggestedMin.Some? {
        min := Some(Min(NumberOf(min), options.suggestedMin.value));
      }

      if options.max.Some? {
        max := options.max;
      } else if options.suggestedMax.Some? {
        max := Some(Max(NumberOf(max), options.suggestedMax.value));
      }

      if min == max {
        max := Some(NumberOf(max) + 1.0);
        if !options.beginAtZero {
          min := Some(NumberOf(min) - 1.0);
        }
      }
    }

    /**
     * The first half of `buildTicks`: the generator, handed the options and
     * the current range, produces the ticks.
     */
    method GenerateTicks(maxTicks: real, generator: (GeneratorOptions, Bounds) -> seq<real>)
      modifies this`ticks
      ensures ticks == generator(GeneratorOptionsFor(maxTicks, options), Range())
    {
      var numericGeneratorOptions := GeneratorOptionsFor(maxTicks, options);
      ticks := generator(numericGeneratorOptions, Range());
    }

    /**
     * The second half of `buildTicks`, after the directional hook: the range
     * becomes the extremes of the ticks, and `reverse` flips the ticks and
     * the ends of the axis.
     */
    method SettleTicks()
      requires ticks != []
      modifies this`ticks, this`min, this`max, this`start, this`end
      ensures ticks == if options.reverse then Reverse(old(ticks)) else old(ticks)
      ensures min == ScaleData.MinOf(ticks) && max == ScaleData.MaxOf(ticks)
      ensures min.Some? && max.Some?
      ensures options.reverse ==> start == max.value && end == min.value
      ensures !options.reverse ==> start == min.value && end == max.value
    {
      var generated := ticks;
      var hi := ScaleData.MaxOf(generated);
      var lo := ScaleData.MinOf(generated);
      max, min := hi, lo;
      if options.reverse {
        ExtremesIgnoreOrder(generated);
        ticks := Reverse(generated);
        start := hi.value;
        end := lo.value;
      } else {
        start := lo.value;
        end := hi.value;
      }
    }

    /** `convertTicksToLabels`: a numeric copy of the ticks and the position of the zero line. */
    method ConvertTicksToLabels()
      modifies this`ticksAsNumbers, this`zeroLineIndex
      ensures ticksAsNumbers == ticks
      ensures zeroLineIndex == Find(ticks, 0.0)
      ensures zeroLineIndex == -1 <==> 0.0 !in ticks
      ensures zeroLineIndex >= 0 ==> ticks[zeroLineIndex] == 0.0
    {
      ticksAsNumbers := ticks;
      zeroLineIndex := Find(ticks, 0.0);
    }
  }
}
