/**
 * The title box (src/core/core.title.js): its options, resolved against the
 * global title defaults, and the sizing bookkeeping the layout asks of it.
 * `update` records the space on offer, resets the box along the title's
 * axis (`setDimensions`) and then measures it (`fit`): a title at the top or
 * bottom fills the whole width and is one text band high; one at the left
 * or right fills the whole height and is one text band wide. Drawing is not
 * modelled.
 */
module Title {
  import opened Js

  /** The title options the sizing depends on, after merging with the defaults. */
  datatype TitleOptions = TitleOptions(display: bool, position: string, fontSize: Option<real>, padding: real)

  /** Title options as a chart configuration gives them: each may be absent. */
  datatype TitleConfig = TitleConfig(display: Option<bool>, position: Option<string>,
                                     fontSize: Option<real>, padding: Option<real>)

  /** `Chart.defaults.global.title`: hidden, at the top, padding 10, no font size of its own. */
  const Defaults: TitleOptions := TitleOptions(false, "top", None, 10.0)

  /** `configMerge(Chart.defaults.global.title, config)`: given options win over the defaults. */
  function Merged(config: TitleConfig): (r: TitleOptions)
    ensures r.display == if config.display.Some? then config.display.value else Defaults.display
    ensures r.position == if config.position.Some? then config.position.value else Defaults.position
    ensures r.padding == if config.padding.Some? then config.padding.value else Defaults.padding
    ensures r.fontSize == config.fontSize
  {
    TitleOptions(
      if config.display.Some? then config.display.value else false,
      if config.position.Some? then config.position.value else "top",
      config.fontSize,
      if config.padding.Some? then config.padding.value else 10.0)
  }

  /** `pos === 'top' || pos === 'bottom'`. */
  predicate Horizontal(options: TitleOptions)
  {
    options.position == "top" || options.position == "bottom"
  }

  /** A title configured with nothing is hidden and lies along the top edge. */
  lemma UnconfiguredTitle()
    ensures var o := Merged(TitleConfig(None, None, None, None));
      !o.display && Horizontal(o) && Thickness(o) == 0.0
  {
  }

  /** `getValueOrDefault(opts.fontSize, defaultFontSize)`. */
  function FontSize(options: TitleOptions): (r: real)
    ensures options.fontSize.None? ==> r == DefaultFontSize
    ensures options.fontSize.Some? ==> r == options.fontSize.value
  {
    if options.fontSize.Some? then options.fontSize.value else DefaultFontSize
  }

  /**
   * How far a title reaches across its axis: one text band with its padding on
   * both sides when displayed, nothing when hidden.
   */
  function Thickness(options: TitleOptions): (r: real)
    ensures !options.display ==> r == 0.0
    ensures options.display ==> r == FontSize(options) + 2.0 * options.padding
  {
    if options.display then FontSize(options) + options.padding * 2.0 else 0.0
  }

  /** A displayed title with a non-negative font size and padding takes at least its font size. */
  lemma ThicknessCoversText(options: TitleOptions)
    requires options.display && FontSize(options) >= 0.0 && options.padding >= 0.0
    ensures FontSize(options) <= Thickness(options)
  {
  }

  datatype Size = Size(width: real, height: real)

  class TitleBox {
    var options: TitleOptions
    var maxWidth: real
    var maxHeight: real
    var margins: Value
    var left: real
    var right: real
    var top: real
    var bottom: real
    var width: real
    var height: real
    var paddingLeft: real
    var paddingTop: real
    var paddingRight: real
    var paddingBottom: real
    var minSize: Size

    /** `new Title(config)`: the options are the configured ones merged over the defaults. */
    constructor(config: TitleConfig)
      ensures options == Merged(config)
    {
      options := Merged(config);
    }

    /** `isHorizontal()`. */
    function IsHorizontal(): (r: bool)
      reads this
      ensures r <==> options.position == "top" || options.position == "bottom"
    {
      Horizontal(options)
    }

    /** `beforeUpdate()`: re-reads the chart's title options, when it has any. */
    method BeforeUpdate(chartTitle: Option<TitleConfig>)
      modifies this`options
      ensures chartTitle.Some? ==> options == Merged(chartTitle.value)
      ensures chartTitle.None? ==> options == old(options)
      ensures maxWidth == old(maxWidth) && maxHeight == old(maxHeight) && minSize == old(minSize)
      ensures width == old(width) && height == old(height) && margins == old(margins)
      ensures left == old(left) && right == old(right) && top == old(top) && bottom == old(bottom)
      ensures paddingLeft == old(paddingLeft) && paddingTop == old(paddingTop)
      ensures paddingRight == old(paddingRight) && paddingBottom == old(paddingBottom)
    {
      if chartTitle.Some? {
        options := Merged(chartTitle.value);
      }
    }

    /**
     * `setDimensions()`: stretches the box along the title's axis to the space
     * on offer, and zeroes the paddings and the minimum size.
     */
    method SetDimensions()
      modifies this
      ensures options == old(options) && maxWidth == old(maxWidth) && maxHeight == old(maxHeight)
      ensures margins == old(margins)
      ensures IsHorizontal() ==>
        width == maxWidth && left == 0.0 && right == width &&
        height == old(height) && top == old(top) && bottom == old(bottom)
      ensures !IsHorizontal() ==>
        height == maxHeight && top == 0.0 && bottom == height &&
        width == old(width) && left == old(left) && right == old(right)
      ensures paddingLeft == 0.0 && paddingTop == 0.0 && paddingRight == 0.0 && paddingBottom == 0.0
      ensures minSize == Size(0.0, 0.0)
    {
      if IsHorizontal() {
        width := maxWidth;
        left := 0.0;
        right := width;
      } else {
        height := maxHeight;
        top := 0.0;
        bottom := height;
      }
      paddingLeft := 0.0;
      paddingTop := 0.0;
      paddingRight := 0.0;
      paddingBottom := 0.0;
      minSize := Size(0.0, 0.0);
    }

    /**
     * `fit()`: the minimum size fills the space on offer along the title's axis
     * and is the title's thickness across it; the box takes that size.
     */
    method Fit()
      modifies this
      ensures options == old(options) && maxWidth == old(maxWidth) && maxHeight == old(maxHeight)
      ensures margins == old(margins)
      ensures IsHorizontal() ==> minSize == Size(maxWidth, Thickness(options))
      ensures !IsHorizontal() ==> minSize == Size(Thickness(options), maxHeight)
      ensures width == minSize.width && height == minSize.height
      ensures left == old(left) && right == old(right) && top == old(top) && bottom == old(bottom)
      ensures paddingLeft == old(paddingLeft) && paddingTop == old(paddingTop)
      ensures paddingRight == old(paddingRight) && paddingBottom == old(paddingBottom)
    {
      var display := options.display;
      var fontSize := FontSize(options);
      if IsHorizontal() {
        minSize := minSize.(width := maxWidth);
        minSize := minSize.(height := if display then fontSize + options.padding * 2.0 else 0.0);
      } else {
        minSize := minSize.(width := if display then fontSize + options.padding * 2.0 else 0.0);
        minSize := minSize.(height := maxHeight);
      }
      width := minSize.width;
      height := minSize.height;
    }

    /**
     * `update(maxWidth, maxHeight, margins)`: records the space on offer, sizes
     * the box and returns its minimum size. A horizontal title spans
     * `[0, maxWidth]` and is one band high; a vertical one spans
     * `[0, maxHeight]` and is one band wide.
     */
    method Update(newMaxWidth: real, newMaxHeight: real, newMargins: Value, chartTitle: Option<TitleConfig>)
      returns (r: Size)
      modifies this
      ensures chartTitle.Some? ==> options == Merged(chartTitle.value)
      ensures chartTitle.None? ==> options == old(options)
      ensures maxWidth == newMaxWidth && maxHeight == newMaxHeight && margins == newMargins
      ensures r == minSize && width == r.width && height == r.height
      ensures IsHorizontal() ==>
        r == Size(newMaxWidth, Thickness(options)) && left == 0.0 && right == newMaxWidth &&
        top == old(top) && bottom == old(bottom)
      ensures !IsHorizontal() ==>
        r == Size(Thickness(options), newMaxHeight) && top == 0.0 && bottom == newMaxHeight &&
        left == old(left) && right == old(right)
      ensures paddingLeft == 0.0 && paddingTop == 0.0 && paddingRight == 0.0 && paddingBottom == 0.0
    {
      BeforeUpdate(chartTitle);
      maxWidth := newMaxWidth;
      maxHeight := newMaxHeight;
      margins := newMargins;
      SetDimensions();
      Fit();
      r := minSize;
    }
  }
}
