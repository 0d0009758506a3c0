/**
 * What the numeric scales read of the chart's datasets when they determine
 * their domain (`determineDataLimits` in src/scales/scale.linear.js and
 * src/scales/scale.logarithmic.js), and the two loops those functions share:
 * the running min/max over qualifying samples, and the per-type, per-index
 * accumulation of stacked totals.
 */
module ScaleData {
  import opened Js

  /**
   * One data point as a scale sees it: `+getRightValue(raw)` (`None` when it
   * is NaN) and the `hidden` flag of the element drawn for it.
   */
  datatype Sample = Sample(value: Option<real>, hidden: bool)

  /** The scale's `options.stacked` and `options.relativePoints`. */
  datatype AxisOptions = AxisOptions(stacked: bool, relativePoints: bool)

  /** One dataset: `isDatasetVisible(i)`, `meta.type`, `meta.xAxisID`/`meta.yAxisID` and its samples. */
  datatype AxisDataset = AxisDataset(
    visible: bool,
    typeName: string,
    xAxisID: Option<string>,
    yAxisID: Option<string>,
    samples: seq<Sample>)

  /** `IDMatches(meta)`: the dataset is bound to the axis `id` of this orientation. */
  predicate IDMatches(d: AxisDataset, horizontal: bool, id: string)
  {
    if horizontal then d.xAxisID == Some(id) else d.yAxisID == Some(id)
  }

  /** The datasets a scale reads: visible and bound to it. */
  predicate Bound(d: AxisDataset, horizontal: bool, id: string)
  {
    d.visible && IDMatches(d, horizontal, id)
  }

  /** Samples that take part: a number that is not NaN, on a point that is not hidden. */
  predicate Qualifies(s: Sample)
  {
    s.value.Some? && !s.hidden
  }

  /** The qualifying values of a run of samples, in order. */
  function QualifyingValues(samples: seq<Sample>): seq<real>
  {
    if samples == [] then []
    else
      var last := samples[|samples| - 1];
      QualifyingValues(samples[..|samples| - 1]) + (if Qualifies(last) then [last.value.value] else [])
  }

  /** The qualifying values are exactly the values of the qualifying samples. */
  lemma {:induction false} QualifyingValuesMembers(samples: seq<Sample>, x: real)
    ensures x in QualifyingValues(samples) <==> exists j :: 0 <= j < |samples| && Qualifies(samples[j]) && samples[j].value.value == x
  {
    if samples != [] {
      var n := |samples| - 1;
      QualifyingValuesMembers(samples[..n], x);
      if x in QualifyingValues(samples[..n]) {
        var j :| 0 <= j < n && Qualifies(samples[..n][j]) && samples[..n][j].value.value == x;
        assert samples[j] == samples[..n][j];
      }
      if exists j :: 0 <= j < |samples| && Qualifies(samples[j]) && samples[j].value.value == x {
        var j :| 0 <= j < |samples| && Qualifies(samples[j]) && samples[j].value.value == x;
        if j < n {
          assert samples[..n][j] == samples[j];
        }
      }
    }
  }

  /** The qualifying values of all datasets bound to the axis, dataset by dataset. */
  function AxisValues(datasets: seq<AxisDataset>, horizontal: bool, id: string): seq<real>
  {
    if datasets == [] then []
    else
      var last := datasets[|datasets| - 1];
      AxisValues(datasets[..|datasets| - 1], horizontal, id)
        + (if Bound(last, horizontal, id) then QualifyingValues(last.samples) else [])
  }

  /** Some bound dataset has a qualifying sample with value `x`. */
  predicate IsAxisValue(datasets: seq<AxisDataset>, horizontal: bool, id: string, x: real)
  {
    exists i, j :: 0 <= i < |datasets| && Bound(datasets[i], horizontal, id) && 0 <= j < |datasets[i].samples|
      && Qualifies(datasets[i].samples[j]) && datasets[i].samples[j].value.value == x
  }

  /** A value is an axis value exactly when some bound dataset has a qualifying sample with it. */
  lemma {:induction false} AxisValuesMembers(datasets: seq<AxisDataset>, horizontal: bool, id: string, x: real)
    ensures x in AxisValues(datasets, horizontal, id) <==> IsAxisValue(datasets, horizontal, id, x)
  {
    if datasets != [] {
      var n := |datasets| - 1;
      AxisValuesMembers(datasets[..n], horizontal, id, x);
      var last := datasets[n];
      QualifyingValuesMembers(last.samples, x);
      if x in AxisValues(datasets[..n], horizontal, id) {
        var i, j :| 0 <= i < n && Bound(datasets[..n][i], horizontal, id) && 0 <= j < |datasets[..n][i].samples|
          && Qualifies(datasets[..n][i].samples[j]) && datasets[..n][i].samples[j].value.value == x;
        assert datasets[..n][i] == datasets[i];
      }
      if IsAxisValue(datasets, horizontal, id, x) {
        var i, j :| 0 <= i < |datasets| && Bound(datasets[i], horizontal, id) && 0 <= j < |datasets[i].samples|
          && Qualifies(datasets[i].samples[j]) && datasets[i].samples[j].value.value == x;
        if i < n {
          assert datasets[..n][i] == datasets[i];
        }
      }
    }
  }

  /** The values of `s` other than zero. */
  function NonZero(s: seq<real>): (r: seq<real>)
    ensures forall x :: x in r <==> x in s && x != 0.0
  {
    if s == [] then []
    else
      assert s == s[..|s| - 1] + [s[|s| - 1]];
      NonZero(s[..|s| - 1]) + (if s[|s| - 1] != 0.0 then [s[|s| - 1]] else [])
  }

  // ---------------------------------------------------------------------------
  // Running minimum and maximum

  /** `min === null ? value : Math.min(min, value)`: one step of a running minimum starting at null. */
  function MinStep(m: Option<real>, x: real): Option<real>
  {
    if m.None? || x < m.value then Some(x) else m
  }

  function MaxStep(m: Option<real>, x: real): Option<real>
  {
    if m.None? || x > m.value then Some(x) else m
  }

  /** The running minimum over `s` from null: null exactly when `s` is empty, else the least element. */
  function MinOf(s: seq<real>): (r: Option<real>)
    ensures r.None? <==> s == []
  {
    if s == [] then None
    else MinStep(MinOf(s[..|s| - 1]), s[|s| - 1])
  }

  /** The running minimum is an element of `s` and no element is below it. */
  lemma {:induction false} MinOfIsLeast(s: seq<real>)
    ensures MinOf(s).Some? ==> MinOf(s).value in s && forall x :: x in s ==> MinOf(s).value <= x
  {
    if s != [] {
      var n := |s| - 1;
      MinOfIsLeast(s[..n]);
      assert s == s[..n] + [s[n]];
    }
  }

  /** The running maximum over `s` from null: null exactly when `s` is empty, else the greatest element. */
  function MaxOf(s: seq<real>): (r: Option<real>)
    ensures r.None? <==> s == []
  {
    if s == [] then None
    else MaxStep(MaxOf(s[..|s| - 1]), s[|s| - 1])
  }

  /** The running maximum is an element of `s` and no element is above it. */
  lemma {:induction false} MaxOfIsGreatest(s: seq<real>)
    ensures MaxOf(s).Some? ==> MaxOf(s).value in s && forall x :: x in s ==> x <= MaxOf(s).value
  {
    if s != [] {
      var n := |s| - 1;
      MaxOfIsGreatest(s[..n]);
      assert s == s[..n] + [s[n]];
    }
  }

  /** `Math.min` of two running minima, where null stands for "no value yet". */
  function CombineMin(a: Option<real>, b: Option<real>): Option<real>
  {
    if a.None? then b else if b.None? then a else Some(Min(a.value, b.value))
  }

  function CombineMax(a: Option<real>, b: Option<real>): Option<real>
  {
    if a.None? then b else if b.None? then a else Some(Max(a.value, b.value))
  }

  /** The minimum of a concatenation combines the minima of its parts. */
  lemma {:induction false} MinOfConcat(a: seq<real>, b: seq<real>)
    ensures MinOf(a + b) == CombineMin(MinOf(a), MinOf(b))
  {
    if b == [] {
      assert a + b == a;
    } else {
      var n := |b| - 1;
      MinOfConcat(a, b[..n]);
      assert (a + b)[..|a + b| - 1] == a + b[..n];
    }
  }

  /** The maximum of a concatenation combines the maxima of its parts. */
  lemma {:induction false} MaxOfConcat(a: seq<real>, b: seq<real>)
    ensures MaxOf(a + b) == CombineMax(MaxOf(a), MaxOf(b))
  {
    if b == [] {
      assert a + b == a;
    } else {
      var n := |b| - 1;
      MaxOfConcat(a, b[..n]);
      assert (a + b)[..|a + b| - 1] == a + b[..n];
    }
  }

  /** The result of the unstacked loop: running min, max and least non-zero value. */
  datatype Limits = Limits(min: Option<real>, max: Option<real>, minNotZero: Option<real>)

  /** The unstacked domain: extremes of the axis values, and the least of them that is not zero. */
  function UnstackedLimits(datasets: seq<AxisDataset>, horizontal: bool, id: string): Limits
  {
    var values := AxisValues(datasets, horizontal, id);
    Limits(MinOf(values), MaxOf(values), MinOf(NonZero(values)))
  }

  /** The running limits over `values`. */
  function LimitsOf(values: seq<real>): Limits
  {
    Limits(MinOf(values), MaxOf(values), MinOf(NonZero(values)))
  }

  /** One more qualifying value: one step of each running extreme. */
  lemma LimitsOfSnoc(values: seq<real>, x: real)
    ensures var r := LimitsOf(values);
      LimitsOf(values + [x]) == Limits(MinStep(r.min, x), MaxStep(r.max, x),
                                       if x != 0.0 then MinStep(r.minNotZero, x) else r.minNotZero)
  {
    var nz := NonZero(values);
    SnocPrefix(values, x);
    SnocPrefix(nz, x);
    assert MinOf(values + [x]) == MinStep(MinOf(values), x);
    assert MaxOf(values + [x]) == MaxStep(MaxOf(values), x);
    assert NonZero(values + [x]) == nz + (if x != 0.0 then [x] else []);
    if x != 0.0 {
      assert MinOf(nz + [x]) == MinStep(MinOf(nz), x);
    } else {
      assert nz + [] == nz;
    }
  }

  lemma SnocPrefix(s: seq<real>, x: real)
    ensures (s + [x])[..|s|] == s && (s + [x])[|s|] == x && |s + [x]| - 1 == |s|
  {
  }

  /**
   * The unstacked loop of `determineDataLimits`: over each bound dataset's
   * samples, skip NaN and hidden points and keep the running min and max
   * (and, for the logarithmic scale, the least non-zero value).
   */
  method ScanUnstacked(datasets: seq<AxisDataset>, horizontal: bool, id: string) returns (r: Limits)
    ensures r == UnstackedLimits(datasets, horizontal, id)
  {
    r := Limits(None, None, None);
    var i := 0;
    while i < |datasets|
      invariant 0 <= i <= |datasets|
      invariant r == LimitsOf(AxisValues(datasets[..i], horizontal, id))
    {
      var d := datasets[i];
      assert datasets[..i + 1][..i] == datasets[..i];
      ghost var before := AxisValues(datasets[..i], horizontal, id);
      if Bound(d, horizontal, id) {
        r := ScanSamples(r, before, d.samples);
        assert AxisValues(datasets[..i + 1], horizontal, id) == before + QualifyingValues(d.samples);
      } else {
        assert AxisValues(datasets[..i + 1], horizontal, id) == before + [];
        assert before + [] == before;
      }
      i := i + 1;
    }
    assert datasets[..i] == datasets;
  }

  /** The inner loop: the running limits carried on over one dataset's samples. */
  method ScanSamples(r0: Limits, ghost before: seq<real>, samples: seq<Sample>) returns (r: Limits)
    requires r0 == LimitsOf(before)
    ensures r == LimitsOf(before + QualifyingValues(samples))
  {
    r := r0;
    var j := 0;
    assert before + QualifyingValues(samples[..0]) == before;
    while j < |samples|
      invariant 0 <= j <= |samples|
      invariant r == LimitsOf(before + QualifyingValues(samples[..j]))
    {
      var s := samples[j];
      assert samples[..j + 1][..j] == samples[..j];
      if Qualifies(s) {
        var value := s.value.value;
        assert before + QualifyingValues(samples[..j + 1]) == before + QualifyingValues(samples[..j]) + [value];
        LimitsOfSnoc(before + QualifyingValues(samples[..j]), value);
        r := Limits(MinStep(r.min, value), MaxStep(r.max, value),
                    if value != 0.0 then MinStep(r.minNotZero, value) else r.minNotZero);
      } else {
        assert QualifyingValues(samples[..j + 1]) == QualifyingValues(samples[..j]) + [];
        assert QualifyingValues(samples[..j]) + [] == QualifyingValues(samples[..j]);
      }
      j := j + 1;
    }
    assert samples[..j] == samples;
  }

  /** With no qualifying sample the domain stays null; otherwise it spans exactly the axis values. */
  lemma UnstackedLimitsBracket(datasets: seq<AxisDataset>, horizontal: bool, id: string)
    ensures var r := UnstackedLimits(datasets, horizontal, id);
      var values := AxisValues(datasets, horizontal, id);
      (r.min.None? <==> values == []) && (r.max.None? <==> values == [])
      && (r.min.Some? ==> r.min.value in values && r.max.value in values && r.min.value <= r.max.value)
      && (forall x :: x in values ==> r.min.value <= x <= r.max.value)
      && (r.minNotZero.Some? ==> r.minNotZero.value != 0.0 && r.minNotZero.value in values)
      && (forall x :: x in values && x != 0.0 ==> r.minNotZero.Some? && r.minNotZero.value <= x)
  {
    var values := AxisValues(datasets, horizontal, id);
    MinOfIsLeast(values);
    MaxOfIsGreatest(values);
    MinOfIsLeast(NonZero(values));
  }

  // ---------------------------------------------------------------------------
  // Stacked totals

  /** A JavaScript array with holes: `None` is a hole. */
  type Sparse = seq<Option<real>>

  /** `arr[i]`, where a hole and an index past the end both read as `None`. */
  function Get(arr: Sparse, i: nat): Option<real>
  {
    if i < |arr| then arr[i] else None
  }

  /** `arr[i] || 0` for an array of numbers that are never NaN. */
  function Or0(v: Option<real>): real
  {
    if v.Some? then v.value else 0.0
  }

  /** `arr[i] = v`: writing past the end leaves holes in between. */
  function SetAt(arr: Sparse, i: nat, v: real): (r: Sparse)
    ensures Get(r, i) == Some(v)
    ensures forall k :: k != i ==> Get(r, k) == Get(arr, k)
    ensures |r| == if i < |arr| then |arr| else i + 1
  {
    if i < |arr| then arr[i := Some(v)]
    else arr + seq(i - |arr|, _ => None) + [Some(v)]
  }

  /** The defined entries of a sparse array, in index order. */
  function Defined(arr: Sparse): (r: seq<real>)
    ensures |r| <= |arr|
  {
    if arr == [] then []
    else
      var last := arr[|arr| - 1];
      Defined(arr[..|arr| - 1]) + (if last.Some? then [last.value] else [])
  }

  /** `x` is a defined entry exactly when some index of `arr` holds it. */
  lemma {:induction false} DefinedMembers(arr: Sparse, x: real)
    ensures x in Defined(arr) <==> exists i :: 0 <= i < |arr| && arr[i] == Some(x)
  {
    if arr != [] {
      var n := |arr| - 1;
      var prefix := arr[..n];
      DefinedMembers(prefix, x);
      assert forall i :: 0 <= i < n ==> prefix[i] == arr[i];
    }
  }

  /**
   * The linear scale keeps a positive and a negative total per index; the
   * logarithmic scale keeps one signed total (`positive`, with `negative`
   * left empty).
   */
  datatype StackMode = SplitBySign | Signed

  datatype Totals = Totals(positive: Sparse, negative: Sparse)

  /** The stacking step for one qualifying `value` at `index`. */
  function Accumulate(t: Totals, index: nat, value: real, relative: bool, mode: StackMode): Totals
  {
    var pos := Or0(Get(t.positive, index));
    match mode
    case SplitBySign =>
      // positiveValues[index] = positiveValues[index] || 0; negativeValues[index] = negativeValues[index] || 0;
      var neg := Or0(Get(t.negative, index));
      if relative then Totals(SetAt(t.positive, index, 100.0), SetAt(t.negative, index, neg))
      else if value < 0.0 then Totals(SetAt(t.positive, index, pos), SetAt(t.negative, index, neg + value))
      else Totals(SetAt(t.positive, index, pos + value), SetAt(t.negative, index, neg))
    case Signed =>
      Totals(SetAt(t.positive, index, if relative then 100.0 else pos + value), t.negative)
  }

  /** The totals after the first `n` samples of one dataset. */
  function StackSamples(t: Totals, samples: seq<Sample>, n: nat, relative: bool, mode: StackMode): Totals
    requires n <= |samples|
  {
    if n == 0 then t
    else
      var prev := StackSamples(t, samples, n - 1, relative, mode);
      var s := samples[n - 1];
      if Qualifies(s) then Accumulate(prev, n - 1, s.value.value, relative, mode) else prev
  }

  /** `valuesPerType`, with the order in which its type keys were created. */
  datatype Stacks = Stacks(groups: map<string, Totals>, order: seq<string>)

  predicate StacksValid(st: Stacks)
  {
    (forall t :: t in st.order ==> t in st.groups) && (forall t :: t in st.groups ==> t in st.order)
  }

  /**
   * The stacked pass over the datasets. The linear scale creates the group of
   * every dataset's type (`everyType`), the logarithmic one only of bound ones.
   */
  function StackDatasets(datasets: seq<AxisDataset>, horizontal: bool, id: string, relative: bool, mode: StackMode, everyType: bool): (st: Stacks)
    ensures StacksValid(st)
  {
    if datasets == [] then Stacks(map[], [])
    else
      var prev := StackDatasets(datasets[..|datasets| - 1], horizontal, id, relative, mode, everyType);
      StackDataset(prev, datasets[|datasets| - 1], horizontal, id, relative, mode, everyType)
  }

  /** The stacked pass over one dataset. */
  function StackDataset(prev: Stacks, d: AxisDataset, horizontal: bool, id: string, relative: bool, mode: StackMode, everyType: bool): (st: Stacks)
    requires StacksValid(prev)
    ensures StacksValid(st)
  {
    var bound := Bound(d, horizontal, id);
    var created :=
      if (everyType || bound) && d.typeName !in prev.groups
      then Stacks(prev.groups[d.typeName := Totals([], [])], prev.order + [d.typeName])
      else prev;
    if bound then
      var g := created.groups[d.typeName];
      Stacks(created.groups[d.typeName := StackSamples(g, d.samples, |d.samples|, relative, mode)], created.order)
    else created
  }

  /** The totals of every group, positive then negative entries, groups in creation order. */
  function StackValues(st: Stacks, k: nat): seq<real>
    requires StacksValid(st) && k <= |st.order|
  {
    if k == 0 then []
    else
      var g := st.groups[st.order[k - 1]];
      StackValues(st, k - 1) + (Defined(g.positive) + Defined(g.negative))
  }

  /** The stacked domain: the extremes over all groups' totals. */
  function StackedLimits(st: Stacks): (Option<real>, Option<real>)
    requires StacksValid(st)
  {
    var values := StackValues(st, |st.order|);
    (MinOf(values), MaxOf(values))
  }

  /**
   * The last loop of the stacked branch: over each type group,
   * `me.min = me.min === null ? minVal : Math.min(me.min, minVal)`, and
   * likewise for max.
   */
  method CombineGroups(st: Stacks) returns (min: Option<real>, max: Option<real>)
    requires StacksValid(st)
    ensures (min, max) == StackedLimits(st)
  {
    min, max := None, None;
    var k := 0;
    while k < |st.order|
      invariant 0 <= k <= |st.order|
      invariant min == MinOf(StackValues(st, k)) && max == MaxOf(StackValues(st, k))
    {
      var g := st.groups[st.order[k]];
      var values := Defined(g.positive) + Defined(g.negative);
      CombineGroupsStep(st, k);
      min := CombineMin(min, MinOf(values));
      max := CombineMax(max, MaxOf(values));
      k := k + 1;
    }
  }

  /** One more group in the stacked domain combines with its own extremes. */
  lemma CombineGroupsStep(st: Stacks, k: nat)
    requires StacksValid(st) && k < |st.order|
    ensures var g := st.groups[st.order[k]];
      var values := Defined(g.positive) + Defined(g.negative);
      MinOf(StackValues(st, k + 1)) == CombineMin(MinOf(StackValues(st, k)), MinOf(values))
      && MaxOf(StackValues(st, k + 1)) == CombineMax(MaxOf(StackValues(st, k)), MaxOf(values))
  {
    var g := st.groups[st.order[k]];
    var values := Defined(g.positive) + Defined(g.negative);
    assert StackValues(st, k + 1) == StackValues(st, k) + values;
    MinOfConcat(StackValues(st, k), values);
    MaxOfConcat(StackValues(st, k), values);
  }

  /**
   * The nested loops of the stacked branch: for each dataset, create its
   * type group when missing, then add each qualifying sample of a bound
   * dataset to the totals at its index.
   */
  method ScanStacked(datasets: seq<AxisDataset>, horizontal: bool, id: string, relative: bool, mode: StackMode, everyType: bool)
    returns (st: Stacks)
    ensures st == StackDatasets(datasets, horizontal, id, relative, mode, everyType)
  {
    st := Stacks(map[], []);
    var i := 0;
    while i < |datasets|
      invariant 0 <= i <= |datasets|
      invariant st == StackDatasets(datasets[..i], horizontal, id, relative, mode, everyType)
    {
      var d := datasets[i];
      assert datasets[..i + 1][..i] == datasets[..i];
      var bound := Bound(d, horizontal, id);
      if (everyType || bound) && d.typeName !in st.groups {
        st := Stacks(st.groups[d.typeName := Totals([], [])], st.order + [d.typeName]);
      }
      if bound {
        var g := st.groups[d.typeName];
        ghost var g0 := g;
        var j := 0;
        while j < |d.samples|
          invariant 0 <= j <= |d.samples|
          invariant g == StackSamples(g0, d.samples, j, relative, mode)
        {
          var s := d.samples[j];
          if Qualifies(s) {
            g := Accumulate(g, j, s.value.value, relative, mode);
          }
          j := j + 1;
        }
        st := Stacks(st.groups[d.typeName := g], st.order);
      }
      i := i + 1;
    }
    assert datasets[..i] == datasets;
  }

  // ---------------------------------------------------------------------------
  // What the stacked totals are

  /** Which sample values a total adds up. */
  datatype Sign = NonNegative | Negative | AnySign

  predicate Selects(sign: Sign, v: real)
  {
    match sign
    case NonNegative => v >= 0.0
    case Negative => v < 0.0
    case AnySign => true
  }

  /** The dataset has a qualifying sample at `index` and belongs to the group of type `typeName`. */
  predicate Contributes(d: AxisDataset, horizontal: bool, id: string, typeName: string, index: nat)
  {
    d.typeName == typeName && Bound(d, horizontal, id) && index < |d.samples| && Qualifies(d.samples[index])
  }

  /** Some bound dataset of the type has a qualifying sample at `index`. */
  predicate Touched(datasets: seq<AxisDataset>, horizontal: bool, id: string, typeName: string, index: nat)
  {
    exists i :: 0 <= i < |datasets| && Contributes(datasets[i], horizontal, id, typeName, index)
  }

  /** The sum of the selected qualifying values at `index` over the bound datasets of the type. */
  function IndexSum(datasets: seq<AxisDataset>, horizontal: bool, id: string, typeName: string, index: nat, sign: Sign): real
  {
    if datasets == [] then 0.0
    else
      var d := datasets[|datasets| - 1];
      var rest := IndexSum(datasets[..|datasets| - 1], horizontal, id, typeName, index, sign);
      if Contributes(d, horizontal, id, typeName, index) && Selects(sign, d.samples[index].value.value)
      then rest + d.samples[index].value.value
      else rest
  }

  /** What the positive (or signed) total at `index` must be once the index is touched. */
  function ExpectedPositive(datasets: seq<AxisDataset>, horizontal: bool, id: string, typeName: string, index: nat, relative: bool, mode: StackMode): real
  {
    if relative then 100.0
    else IndexSum(datasets, horizontal, id, typeName, index, if mode.SplitBySign? then NonNegative else AnySign)
  }

  /** What the negative total at `index` must be once the index is touched (linear scale). */
  function ExpectedNegative(datasets: seq<AxisDataset>, horizontal: bool, id: string, typeName: string, index: nat, relative: bool): real
  {
    if relative then 0.0 else IndexSum(datasets, horizontal, id, typeName, index, Negative)
  }

  /** The totals a group must hold at `index` after the datasets `datasets`. */
  predicate EntryIsExpected(t: Totals, datasets: seq<AxisDataset>, horizontal: bool, id: string, typeName: string, index: nat, relative: bool, mode: StackMode)
  {
    if Touched(datasets, horizontal, id, typeName, index) then
      Get(t.positive, index) == Some(ExpectedPositive(datasets, horizontal, id, typeName, index, relative, mode))
      && (mode.SplitBySign? ==> Get(t.negative, index) == Some(ExpectedNegative(datasets, horizontal, id, typeName, index, relative)))
      && (mode.Signed? ==> Get(t.negative, index) == None)
    else
      Get(t.positive, index) == None && Get(t.negative, index) == None
  }

  /**
   * The stacked totals: for every type group and index, the positive total is
   * the sum of the non-negative qualifying samples (the signed total: of all
   * of them) at that index over the bound datasets of that type, and the
   * negative total the sum of the negative ones; both start at 0, so they are
   * defined exactly at the indices some sample touched. Under `relativePoints`
   * a touched positive (or signed) total is 100 and a negative one 0.
   */
  lemma {:induction false} StackedTotalsAreSums(datasets: seq<AxisDataset>, horizontal: bool, id: string, relative: bool, mode: StackMode, everyType: bool, typeName: string, index: nat)
    ensures var st := StackDatasets(datasets, horizontal, id, relative, mode, everyType);
      (Touched(datasets, horizontal, id, typeName, index) ==> typeName in st.groups)
      && (typeName in st.groups ==> EntryIsExpected(st.groups[typeName], datasets, horizontal, id, typeName, index, relative, mode))
  {
    if datasets != [] {
      var n := |datasets| - 1;
      StackedTotalsAreSums(datasets[..n], horizontal, id, relative, mode, everyType, typeName, index);
      assert datasets[..n] + [datasets[n]] == datasets;
      StackDatasetStep(StackDatasets(datasets[..n], horizontal, id, relative, mode, everyType), datasets[..n], datasets[n],
                       horizontal, id, relative, mode, everyType, typeName, index);
    }
  }

  /** The induction step of StackedTotalsAreSums: one more dataset. */
  lemma StackDatasetStep(prev: Stacks, front: seq<AxisDataset>, d: AxisDataset, horizontal: bool, id: string, relative: bool, mode: StackMode, everyType: bool, typeName: string, index: nat)
    requires StacksValid(prev)
    requires Touched(front, horizontal, id, typeName, index) ==> typeName in prev.groups
    requires typeName in prev.groups ==> EntryIsExpected(prev.groups[typeName], front, horizontal, id, typeName, index, relative, mode)
    ensures var st := StackDataset(prev, d, horizontal, id, relative, mode, everyType);
      (Touched(front + [d], horizontal, id, typeName, index) ==> typeName in st.groups)
      && (typeName in st.groups ==> EntryIsExpected(st.groups[typeName], front + [d], horizontal, id, typeName, index, relative, mode))
  {
    TouchedSnoc(front, d, horizontal, id, typeName, index);
    var bound := Bound(d, horizontal, id);
    var created :=
      if (everyType || bound) && d.typeName !in prev.groups
      then Stacks(prev.groups[d.typeName := Totals([], [])], prev.order + [d.typeName])
      else prev;
    if typeName in created.groups {
      var g := created.groups[typeName];
      if typeName !in prev.groups {
        UntouchedSumsToZero(front, horizontal, id, typeName, index, NonNegative);
      }
      assert EntryIsExpected(g, front, horizontal, id, typeName, index, relative, mode);
      GroupAfterDataset(g, front, d, horizontal, id, relative, mode, typeName, index);
    }
  }

  /** One more dataset, seen from a single group and index. */
  lemma GroupAfterDataset(g: Totals, front: seq<AxisDataset>, d: AxisDataset, horizontal: bool, id: string, relative: bool, mode: StackMode, typeName: string, index: nat)
    requires EntryIsExpected(g, front, horizontal, id, typeName, index, relative, mode)
    ensures EntryIsExpected(
      if Bound(d, horizontal, id) && d.typeName == typeName then StackSamples(g, d.samples, |d.samples|, relative, mode) else g,
      front + [d], horizontal, id, typeName, index, relative, mode)
  {
    TouchedSnoc(front, d, horizontal, id, typeName, index);
    IndexSumSnoc(front, d, horizontal, id, typeName, index, NonNegative);
    IndexSumSnoc(front, d, horizontal, id, typeName, index, Negative);
    IndexSumSnoc(front, d, horizontal, id, typeName, index, AnySign);
    if Bound(d, horizontal, id) && d.typeName == typeName {
      StackSamplesEntry(g, d.samples, |d.samples|, relative, mode, index);
      if Contributes(d, horizontal, id, typeName, index) {
        if !Touched(front, horizontal, id, typeName, index) {
          UntouchedSumsToZero(front, horizontal, id, typeName, index, NonNegative);
          UntouchedSumsToZero(front, horizontal, id, typeName, index, Negative);
          UntouchedSumsToZero(front, horizontal, id, typeName, index, AnySign);
        }
        ContributionAdds(g, front, d, horizontal, id, relative, mode, typeName, index);
      }
    }
  }

  /** A contributing sample adds its value to the matching total at its index. */
  lemma ContributionAdds(g: Totals, front: seq<AxisDataset>, d: AxisDataset, horizontal: bool, id: string, relative: bool, mode: StackMode, typeName: string, index: nat)
    requires Contributes(d, horizontal, id, typeName, index)
    requires EntryIsExpected(g, front, horizontal, id, typeName, index, relative, mode)
    requires !Touched(front, horizontal, id, typeName, index) ==>
      IndexSum(front, horizontal, id, typeName, index, NonNegative) == 0.0
      && IndexSum(front, horizontal, id, typeName, index, Negative) == 0.0
      && IndexSum(front, horizontal, id, typeName, index, AnySign) == 0.0
    requires Touched(front + [d], horizontal, id, typeName, index)
    requires forall sign: Sign :: (IndexSum(front + [d], horizontal, id, typeName, index, sign)
      == IndexSum(front, horizontal, id, typeName, index, sign)
         + (if Selects(sign, d.samples[index].value.value) then d.samples[index].value.value else 0.0))
    ensures var r := Accumulate(g, index, d.samples[index].value.value, relative, mode);
      Get(r.positive, index) == Some(ExpectedPositive(front + [d], horizontal, id, typeName, index, relative, mode))
      && (mode.SplitBySign? ==> Get(r.negative, index) == Some(ExpectedNegative(front + [d], horizontal, id, typeName, index, relative)))
      && (mode.Signed? ==> Get(r.negative, index) == None)
  {
    var v := d.samples[index].value.value;
    assert IndexSum(front + [d], horizontal, id, typeName, index, NonNegative)
      == IndexSum(front, horizontal, id, typeName, index, NonNegative) + (if v >= 0.0 then v else 0.0);
    assert IndexSum(front + [d], horizontal, id, typeName, index, Negative)
      == IndexSum(front, horizontal, id, typeName, index, Negative) + (if v < 0.0 then v else 0.0);
    assert IndexSum(front + [d], horizontal, id, typeName, index, AnySign)
      == IndexSum(front, horizontal, id, typeName, index, AnySign) + v;
  }

  /** The sum over one more dataset. */
  lemma IndexSumSnoc(front: seq<AxisDataset>, d: AxisDataset, horizontal: bool, id: string, typeName: string, index: nat, sign: Sign)
    ensures IndexSum(front + [d], horizontal, id, typeName, index, sign)
      == IndexSum(front, horizontal, id, typeName, index, sign)
         + (if Contributes(d, horizontal, id, typeName, index) && Selects(sign, d.samples[index].value.value)
            then d.samples[index].value.value else 0.0)
  {
    assert (front + [d])[..|front|] == front;
  }

  /** An index no dataset touched sums to 0. */
  lemma {:induction false} UntouchedSumsToZero(datasets: seq<AxisDataset>, horizontal: bool, id: string, typeName: string, index: nat, sign: Sign)
    requires !Touched(datasets, horizontal, id, typeName, index)
    ensures IndexSum(datasets, horizontal, id, typeName, index, sign) == 0.0
  {
    if datasets != [] {
      var n := |datasets| - 1;
      TouchedSnoc(datasets[..n], datasets[n], horizontal, id, typeName, index);
      assert datasets[..n] + [datasets[n]] == datasets;
      UntouchedSumsToZero(datasets[..n], horizontal, id, typeName, index, sign);
    }
  }

  /** Touching over one more dataset. */
  lemma TouchedSnoc(front: seq<AxisDataset>, d: AxisDataset, horizontal: bool, id: string, typeName: string, index: nat)
    ensures Touched(front + [d], horizontal, id, typeName, index)
      <==> Touched(front, horizontal, id, typeName, index) || Contributes(d, horizontal, id, typeName, index)
    ensures (front + [d])[..|front|] == front
  {
    var all := front + [d];
    if Touched(all, horizontal, id, typeName, index) && !Contributes(d, horizontal, id, typeName, index) {
      var i :| 0 <= i < |all| && Contributes(all[i], horizontal, id, typeName, index);
      assert i < |front| && all[i] == front[i];
    }
    if Touched(front, horizontal, id, typeName, index) {
      var i :| 0 <= i < |front| && Contributes(front[i], horizontal, id, typeName, index);
      assert all[i] == front[i];
    }
    if Contributes(d, horizontal, id, typeName, index) {
      assert all[|front|] == d;
    }
  }

  /** The entry at `index` after a dataset's samples: only the sample at `index` changes it. */
  lemma {:induction false} StackSamplesEntry(t: Totals, samples: seq<Sample>, n: nat, relative: bool, mode: StackMode, index: nat)
    requires n <= |samples|
    ensures var r := StackSamples(t, samples, n, relative, mode);
      if index < n && Qualifies(samples[index]) then
        Get(r.positive, index) == Get(Accumulate(t, index, samples[index].value.value, relative, mode).positive, index)
        && Get(r.negative, index) == Get(Accumulate(t, index, samples[index].value.value, relative, mode).negative, index)
      else
        Get(r.positive, index) == Get(t.positive, index) && Get(r.negative, index) == Get(t.negative, index)
  {
    if n > 0 {
      StackSamplesEntry(t, samples, n - 1, relative, mode, index);
      var prev := StackSamples(t, samples, n - 1, relative, mode);
      var s := samples[n - 1];
      if Qualifies(s) {
        if n - 1 != index {
          AccumulateEntry(prev, n - 1, s.value.value, relative, mode, index);
        } else {
          AccumulateReadsOwnEntry(prev, t, index, s.value.value, relative, mode);
        }
      }
    }
  }

  /** Accumulating at one index leaves every other index as it was. */
  lemma AccumulateEntry(t: Totals, at: nat, value: real, relative: bool, mode: StackMode, index: nat)
    requires index != at
    ensures Get(Accumulate(t, at, value, relative, mode).positive, index) == Get(t.positive, index)
    ensures Get(Accumulate(t, at, value, relative, mode).negative, index) == Get(t.negative, index)
  {
  }

  /** Accumulating at an index reads only that index's entries. */
  lemma AccumulateReadsOwnEntry(t1: Totals, t2: Totals, index: nat, value: real, relative: bool, mode: StackMode)
    requires Get(t1.positive, index) == Get(t2.positive, index)
    requires Get(t1.negative, index) == Get(t2.negative, index)
    ensures Get(Accumulate(t1, index, value, relative, mode).positive, index) == Get(Accumulate(t2, index, value, relative, mode).positive, index)
    ensures Get(Accumulate(t1, index, value, relative, mode).negative, index) == Get(Accumulate(t2, index, value, relative, mode).negative, index)
  {
  }

  // ---------------------------------------------------------------------------
  // The stacked linear domain always contains zero

  /** Positive and negative totals are defined at the same indices, with their signs. */
  ghost predicate SignedSplit(t: Totals)
  {
    forall i: nat {:trigger Get(t.positive, i)} {:trigger Get(t.negative, i)} ::
      (Get(t.positive, i).Some? <==> Get(t.negative, i).Some?)
      && (Get(t.positive, i).Some? ==> Get(t.positive, i).value >= 0.0)
      && (Get(t.negative, i).Some? ==> Get(t.negative, i).value <= 0.0)
  }

  lemma {:induction false} StackSamplesSplit(t: Totals, samples: seq<Sample>, n: nat, relative: bool)
    requires n <= |samples| && SignedSplit(t)
    ensures SignedSplit(StackSamples(t, samples, n, relative, SplitBySign))
  {
    if n > 0 {
      StackSamplesSplit(t, samples, n - 1, relative);
      var prev := StackSamples(t, samples, n - 1, relative, SplitBySign);
      var s := samples[n - 1];
      if Qualifies(s) {
        var r := Accumulate(prev, n - 1, s.value.value, relative, SplitBySign);
        forall i: nat
          ensures (Get(r.positive, i).Some? <==> Get(r.negative, i).Some?)
            && (Get(r.positive, i).Some? ==> Get(r.positive, i).value >= 0.0)
            && (Get(r.negative, i).Some? ==> Get(r.negative, i).value <= 0.0)
        {
          if i != n - 1 {
            AccumulateEntry(prev, n - 1, s.value.value, relative, SplitBySign, i);
          }
        }
      }
    }
  }

  ghost predicate AllSplit(st: Stacks)
  {
    forall t :: t in st.groups ==> SignedSplit(st.groups[t])
  }

  lemma {:induction false} StackDatasetsSplit(datasets: seq<AxisDataset>, horizontal: bool, id: string, relative: bool, everyType: bool)
    ensures AllSplit(StackDatasets(datasets, horizontal, id, relative, SplitBySign, everyType))
  {
    if datasets != [] {
      var n := |datasets| - 1;
      StackDatasetsSplit(datasets[..n], horizontal, id, relative, everyType);
      var prev := StackDatasets(datasets[..n], horizontal, id, relative, SplitBySign, everyType);
      var d := datasets[n];
      assert SignedSplit(Totals([], []));
      if Bound(d, horizontal, id) {
        var created :=
          if d.typeName !in prev.groups
          then Stacks(prev.groups[d.typeName := Totals([], [])], prev.order + [d.typeName])
          else prev;
        StackSamplesSplit(created.groups[d.typeName], d.samples, |d.samples|, relative);
      }
    }
  }

  /** One group whose totals are not all holes has a total >= 0 and one <= 0. */
  lemma GroupStraddlesZero(g: Totals)
    requires SignedSplit(g) && Defined(g.positive) + Defined(g.negative) != []
    ensures exists x :: x in Defined(g.positive) && x >= 0.0
    ensures exists y :: y in Defined(g.negative) && y <= 0.0
  {
    var z := (Defined(g.positive) + Defined(g.negative))[0];
    DefinedMembers(g.positive, z);
    DefinedMembers(g.negative, z);
    var i: nat;
    if z in Defined(g.positive) {
      i :| i < |g.positive| && g.positive[i] == Some(z);
      assert Get(g.positive, i).Some?;
    } else {
      i :| i < |g.negative| && g.negative[i] == Some(z);
      assert Get(g.negative, i).Some?;
    }
    assert Get(g.positive, i).Some? && Get(g.negative, i).Some?;
    DefinedMembers(g.positive, Get(g.positive, i).value);
    DefinedMembers(g.negative, Get(g.negative, i).value);
  }

  /** Non-empty split totals hold a value at least 0 and a value at most 0. */
  lemma {:induction false} SplitValuesStraddleZero(st: Stacks, k: nat)
    requires StacksValid(st) && k <= |st.order| && AllSplit(st)
    ensures StackValues(st, k) != [] ==>
      (exists x :: x in StackValues(st, k) && x >= 0.0) && (exists y :: y in StackValues(st, k) && y <= 0.0)
  {
    if k > 0 {
      SplitValuesStraddleZero(st, k - 1);
      var g := st.groups[st.order[k - 1]];
      var rest := StackValues(st, k - 1);
      var mine := Defined(g.positive) + Defined(g.negative);
      assert StackValues(st, k) == rest + mine;
      if mine != [] {
        GroupStraddlesZero(g);
        var x :| x in Defined(g.positive) && x >= 0.0;
        var y :| y in Defined(g.negative) && y <= 0.0;
        assert x in rest + mine && y in rest + mine;
      } else if rest != [] {
        var x :| x in rest && x >= 0.0;
        var y :| y in rest && y <= 0.0;
        assert x in rest + mine && y in rest + mine;
      }
    }
  }

  /**
   * The stacked domain of the linear scale always contains 0, whatever the
   * signs of the samples: every touched index gets both a positive total and
   * a negative total, and they start at 0.
   */
  lemma StackedLinearDomainContainsZero(datasets: seq<AxisDataset>, horizontal: bool, id: string, relative: bool, everyType: bool)
    ensures var lim := StackedLimits(StackDatasets(datasets, horizontal, id, relative, SplitBySign, everyType));
      (lim.0.None? <==> lim.1.None?) && (lim.0.Some? ==> lim.0.value <= 0.0 <= lim.1.value)
  {
    var st := StackDatasets(datasets, horizontal, id, relative, SplitBySign, everyType);
    StackDatasetsSplit(datasets, horizontal, id, relative, everyType);
    SplitValuesStraddleZero(st, |st.order|);
    MinOfIsLeast(StackValues(st, |st.order|));
    MaxOfIsGreatest(StackValues(st, |st.order|));
  }
}
