/**
 * The animation state machine of a visual element (src/core/core.element.js).
 *
 * An element carries three property maps: `_model`, the target appearance the
 * controller computes on every update; `_view`, what is currently drawn; and
 * `_start`, the snapshot of the view taken when the running animation began.
 * `pivot` takes that snapshot, and `transition(ease)` moves the view towards
 * the model by the fraction `ease`, settling on the model itself at `ease == 1`.
 */
module Elements {
  import opened Js

  /** A property bag (`_model`, `_view` or `_start`): property name to value. */
  type Props = map<string, Value>

  /** The three maps; `None` is a view or start that does not exist (yet). */
  datatype ElementState = ElementState(model: Props, view: Option<Props>, start: Option<Props>)

  /** Keys starting with an underscore are private and never animated. */
  predicate IsPrivate(key: string)
  {
    |key| > 0 && key[0] == '_'
  }

  /** `obj[key]`, with `None` for `undefined`. */
  function Lookup(props: Props, key: string): Option<Value>
  {
    if key in props then Some(props[key]) else None
  }

  /** `value * ease` for a value of type number. */
  function Scaled(value: Value, ease: real): Value
  {
    if value.Num? then Num(value.x * ease) else NaN
  }

  /**
   * The start value of a numeric interpolation: the snapshot's value when it
   * is defined and not NaN, else 0.
   */
  function StartValue(start: Props, key: string): real
  {
    var s := Lookup(start, key);
    if s.Some? && !IsNaNOf(s) then ToNumber(s.value).value else 0.0
  }

  /**
   * What one iteration of the loop in `transition` writes to `_view[key]`
   * for the model value `value`; `None` when it writes nothing.
   */
  function KeyUpdate(key: string, value: Value, view: Props, start: Props, ease: real): (r: Option<Value>)
    ensures r.None? <==> IsPrivate(key) || (key in view && StrictEquals(value, view[key]))
  {
    if IsPrivate(key) then None
    else if key !in view then
      // init if it does not exist: `isNaN(_view[key])` holds of the missing value
      if IsNumberType(value) && !IsNaNOf(Lookup(view, key)) then Some(Scaled(value, ease)) else Some(value)
    else if StrictEquals(value, view[key]) then None
    else if value.Str? then
      // the colour blend calls the shadowed local `color`, throws, and the catch assigns the model value
      Some(value)
    else if IsNumberType(value) then
      var s := StartValue(start, key);
      Some(if value.Num? then Num((value.x - s) * ease + s) else NaN)
    else Some(value)
  }

  /** The view after the loop has handled the model keys in `done`. */
  function ViewAfter(model: Props, view: Props, start: Props, ease: real, done: set<string>): Props
  {
    map k | k in view.Keys + done * model.Keys && (k in view || !IsPrivate(k)) ::
      if k in done && k in model && KeyUpdate(k, model[k], view, start, ease).Some?
      then KeyUpdate(k, model[k], view, start, ease).value
      else view[k]
  }

  /** The view after one full pass of the loop over the model keys. */
  function TransitionedView(model: Props, view: Props, start: Props, ease: real): Props
  {
    ViewAfter(model, view, start, ease, model.Keys)
  }

  /** `pivot()`: create the view from the model if there is none, then snapshot the view. */
  function Pivoted(s: ElementState): ElementState
  {
    var view := if s.view.None? then s.model else s.view.value;
    ElementState(s.model, Some(view), Some(view))
  }

  /** `transition(ease)`. */
  function Transitioned(s: ElementState, ease: real): ElementState
  {
    var view := if s.view.None? then s.model else s.view.value;
    if ease == 1.0 then
      // no animation: the view becomes the model and the snapshot is dropped
      ElementState(s.model, Some(s.model), None)
    else
      var start := if s.start.None? then view else s.start.value;
      ElementState(s.model, Some(TransitionedView(s.model, view, start, ease)), Some(start))
  }

  // ---------------------------------------------------------------------------
  // Properties of the state machine

  /** `pivot` keeps an existing view, creates a missing one from the model, and always snapshots it. */
  lemma PivotSnapshotsView(s: ElementState)
    ensures Pivoted(s).model == s.model
    ensures s.view.Some? ==> Pivoted(s).view == s.view
    ensures s.view.None? ==> Pivoted(s).view == Some(s.model)
    ensures Pivoted(s).start == Pivoted(s).view
    ensures Pivoted(Pivoted(s)) == Pivoted(s)
  {
  }

  /**
   * `transition(1)` settles the element: the view is the model and no
   * snapshot is left; settling again changes nothing.
   */
  lemma SettleIsIdempotent(s: ElementState)
    ensures Transitioned(s, 1.0) == ElementState(s.model, Some(s.model), None)
    ensures Transitioned(Transitioned(s, 1.0), 1.0) == Transitioned(s, 1.0)
  {
  }

  /**
   * Any other ease pivots first when there is no snapshot, so afterwards a
   * snapshot exists; an existing snapshot is kept as it was.
   */
  lemma TransitionKeepsSnapshot(s: ElementState, ease: real)
    requires ease != 1.0
    ensures Transitioned(s, ease).start.Some?
    ensures s.start.Some? ==> Transitioned(s, ease).start == s.start
    ensures s.start.None? && s.view.Some? ==> Transitioned(s, ease).start == s.view
    ensures Transitioned(s, ease).model == s.model
  {
  }

  /** The view a transition starts from: the existing view, else a copy of the model. */
  function InitialView(s: ElementState): Props
  {
    if s.view.None? then s.model else s.view.value
  }

  /** Private model keys are never written: the view keeps what it had under them. */
  lemma PrivateKeysUntouched(s: ElementState, ease: real, key: string)
    requires ease != 1.0 && IsPrivate(key)
    ensures var v := Transitioned(s, ease).view.value;
      (key in v <==> key in InitialView(s)) && (key in v ==> v[key] == InitialView(s)[key])
  {
  }

  /** A public model key missing from the view is set to the model value, unscaled. */
  lemma MissingKeyTakesModel(s: ElementState, ease: real, key: string)
    requires ease != 1.0 && key in s.model && !IsPrivate(key) && key !in InitialView(s)
    ensures var v := Transitioned(s, ease).view.value;
      key in v && v[key] == s.model[key]
  {
  }

  /** A key whose view value is already strictly equal to the model value is left alone. */
  lemma EqualKeyUntouched(s: ElementState, ease: real, key: string)
    requires ease != 1.0 && key in s.model && key in InitialView(s)
    requires StrictEquals(s.model[key], InitialView(s)[key])
    ensures var v := Transitioned(s, ease).view.value;
      key in v && v[key] == InitialView(s)[key]
  {
  }

  /** Strings (colours) and values that are neither numbers nor strings snap to the model value. */
  lemma NonNumericKeySnaps(s: ElementState, ease: real, key: string)
    requires ease != 1.0 && key in s.model && !IsPrivate(key) && !IsNumberType(s.model[key])
    ensures var v := Transitioned(s, ease).view.value;
      key in v && v[key] == s.model[key]
  {
  }

  /** Keys the model does not have are not touched. */
  lemma OtherKeysUntouched(s: ElementState, ease: real, key: string)
    requires ease != 1.0 && key !in s.model
    ensures var v := Transitioned(s, ease).view.value;
      (key in v <==> key in InitialView(s)) && (key in v ==> v[key] == InitialView(s)[key])
  {
  }

  /** The start value of a numeric key under `transition(ease)`. */
  function TransitionStart(s: ElementState, key: string): real
  {
    var view := InitialView(s);
    StartValue(if s.start.None? then view else s.start.value, key)
  }

  /**
   * A number that differs from the view interpolates linearly from its start
   * value (0 when missing or NaN) to the model value, and for an ease in
   * [0, 1] lands between the two.
   */
  lemma NumericKeyInterpolates(s: ElementState, ease: real, key: string, target: real)
    requires ease != 1.0 && key in s.model && !IsPrivate(key) && s.model[key] == Num(target)
    requires key in InitialView(s) && InitialView(s)[key] != Num(target)
    ensures var v := Transitioned(s, ease).view.value;
      var a := TransitionStart(s, key);
      key in v && v[key] == Num(a + (target - a) * ease)
    ensures 0.0 <= ease <= 1.0 ==>
      var x := Transitioned(s, ease).view.value[key].x;
      var a := TransitionStart(s, key);
      Min(a, target) <= x <= Max(a, target)
  {
    var a := TransitionStart(s, key);
    NumericKeyValue(s, ease, key, target);
    if 0.0 <= ease <= 1.0 {
      InterpolationBetween(a, target, ease);
    }
  }

  /** The interpolated view value of a numeric key, as a number. */
  lemma NumericKeyValue(s: ElementState, ease: real, key: string, target: real)
    requires ease != 1.0 && key in s.model && !IsPrivate(key) && s.model[key] == Num(target)
    requires key in InitialView(s) && InitialView(s)[key] != Num(target)
    ensures var v := Transitioned(s, ease).view.value;
      key in v && v[key] == Num(Interpolated(TransitionStart(s, key), target, ease))
  {
  }

  /** `a + (b - a) * t`: the point a fraction `t` of the way from `a` to `b`. */
  function Interpolated(a: real, b: real, t: real): real
  {
    a + (b - a) * t
  }

  /** `a + (b - a) * t` lies between `a` and `b` for `t` in [0, 1]. */
  lemma InterpolationBetween(a: real, b: real, t: real)
    requires 0.0 <= t <= 1.0
    ensures Min(a, b) <= Interpolated(a, b, t) <= Max(a, b)
  {
    MonotoneStep(a, b, 0.0, t);
    MonotoneStep(a, b, t, 1.0);
  }

  /**
   * Between two frames of the same animation (same snapshot), a larger ease
   * moves a numeric key no farther from the model value.
   */
  lemma NumericKeyApproachesModel(s: ElementState, e1: real, e2: real, key: string, target: real)
    requires 0.0 <= e1 <= e2 < 1.0
    requires key in s.model && !IsPrivate(key) && s.model[key] == Num(target)
    requires key in InitialView(s) && InitialView(s)[key] != Num(target)
    ensures var x1 := Transitioned(s, e1).view.value[key].x;
      var x2 := Transitioned(s, e2).view.value[key].x;
      var a := TransitionStart(s, key);
      (a <= target ==> x1 <= x2 <= target) && (target <= a ==> target <= x2 <= x1)
  {
    NumericKeyValue(s, e1, key, target);
    NumericKeyValue(s, e2, key, target);
    MonotoneStep(TransitionStart(s, key), target, e1, e2);
  }

  /** Interpolation moves monotonically from `a` towards `b` as the fraction grows. */
  lemma MonotoneStep(a: real, b: real, t1: real, t2: real)
    requires 0.0 <= t1 <= t2 <= 1.0
    ensures a <= b ==> Interpolated(a, b, t1) <= Interpolated(a, b, t2) <= b
    ensures b <= a ==> b <= Interpolated(a, b, t2) <= Interpolated(a, b, t1)
  {
    var d := b - a;
    NonNegativeProduct(if d >= 0.0 then d else -d, t2 - t1);
    NonNegativeProduct(if d >= 0.0 then d else -d, 1.0 - t2);
    assert d * t2 - d * t1 == d * (t2 - t1);
    assert d - d * t2 == d * (1.0 - t2);
  }


  // ---------------------------------------------------------------------------
  // The object

  class Element {
    var model: Props           // `_model`
    var view: Option<Props>    // `_view`
    var start: Option<Props>   // `_start`
    var hidden: bool

    /** A new element; its model is the one the controller's first update assigns. */
    constructor (model: Props)
      ensures this.model == model && view == None && start == None && !hidden
    {
      this.model := model;
      view := None;
      start := None;
      hidden := false;
    }

    function State(): ElementState
      reads this
    {
      ElementState(model, view, start)
    }

    /** `pivot()`. */
    method Pivot()
      modifies this`view, this`start
      ensures State() == Pivoted(old(State()))
    {
      if view.None? {
        view := Some(model);
      }
      start := view;
    }

    /** `transition(ease)`. */
    method Transition(ease: real)
      modifies this`view, this`start
      ensures State() == Transitioned(old(State()), ease)
    {
      if view.None? {
        view := Some(model);
      }
      if ease == 1.0 {
        view := Some(model);
        start := None;
        return;
      }
      if start.None? {
        Pivot();
      }
      var v := TransitionKeys(model, view.value, start.value, ease);
      view := Some(v);
    }

    /** `tooltipPosition()`: the model's `x` and `y`. */
    function TooltipPosition(): (p: (Option<Value>, Option<Value>))
      reads this
      ensures p.0.Some? <==> "x" in model
      ensures p.1.Some? <==> "y" in model
      ensures p.0.Some? ==> p.0.value == model["x"]
      ensures p.1.Some? ==> p.1.value == model["y"]
    {
      (Lookup(model, "x"), Lookup(model, "y"))
    }

    /** `hasValue()`: both model coordinates are finite numbers. */
    function HasValue(): (b: bool)
      reads this
      ensures b <==> "x" in model && "y" in model && model["x"].Num? && model["y"].Num?
    {
      IsFiniteNumber(Lookup(model, "x")) && IsFiniteNumber(Lookup(model, "y"))
    }
  }

  /**
   * The loop of `transition(ease)`: every model key in turn, writing the view
   * entry as KeyUpdate says.
   */
  method TransitionKeys(model: Props, view: Props, start: Props, ease: real) returns (v: Props)
    ensures v == TransitionedView(model, view, start, ease)
  {
    v := view;
    var remaining := model.Keys;
    while remaining != {}
      invariant remaining <= model.Keys
      invariant v == ViewAfter(model, view, start, ease, model.Keys - remaining)
      decreases |remaining|
    {
      var key :| key in remaining;
      ghost var done := model.Keys - remaining;
      var update := KeyUpdate(key, model[key], v, start, ease);
      ViewAfterStep(model, view, start, ease, done, key);
      if update.Some? {
        v := v[key := update.value];
      }
      remaining := remaining - {key};
      assert model.Keys - remaining == done + {key};
    }
    assert model.Keys - remaining == model.Keys;
  }

  /** One more key handled: its entry is written as KeyUpdate says, reading the entries not yet written. */
  lemma ViewAfterStep(model: Props, view: Props, start: Props, ease: real, done: set<string>, key: string)
    requires key in model && key !in done
    ensures var v := ViewAfter(model, view, start, ease, done);
      var u := KeyUpdate(key, model[key], v, start, ease);
      u == KeyUpdate(key, model[key], view, start, ease)
      && ViewAfter(model, view, start, ease, done + {key}) == if u.Some? then v[key := u.value] else v
  {
    var v := ViewAfter(model, view, start, ease, done);
    var w := ViewAfter(model, view, start, ease, done + {key});
    assert (key in v <==> key in view) && (key in v ==> v[key] == view[key]);
    KeyUpdateReadsOneEntry(key, model[key], v, view, start, ease);
    var u := KeyUpdate(key, model[key], view, start, ease);
    var expected := if u.Some? then v[key := u.value] else v;
    assert w.Keys == expected.Keys;
    forall k | k in w
      ensures w[k] == expected[k]
    {
    }
  }

  /** KeyUpdate reads the view only at its own key. */
  lemma KeyUpdateReadsOneEntry(key: string, value: Value, v1: Props, v2: Props, start: Props, ease: real)
    requires (key in v1 <==> key in v2) && (key in v1 ==> v1[key] == v2[key])
    ensures KeyUpdate(key, value, v1, start, ease) == KeyUpdate(key, value, v2, start, ease)
  {
    assert Lookup(v1, key) == Lookup(v2, key);
  }

  /** `helpers.isNumber` on a property read. */
  predicate IsFiniteNumber(v: Option<Value>)
  {
    v.Some? && v.value.Num?
  }
}
