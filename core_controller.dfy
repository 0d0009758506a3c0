/**
 * The bookkeeping of the chart controller (src/core/core.controller.js) that
 * does not touch the canvas: the data defaults of a configuration, the
 * per-chart record each dataset carries (`dataset._meta[chart.id]`, created
 * lazily), the three-state visibility of a dataset, the count of visible
 * datasets, the default ids of the axes, and how the chart settles each
 * dataset's type and whether it mixes types.
 */
module ChartController {
  import opened Js
  import opened DatasetSync

  // ----- initConfig -----

  /** `config.data`: the dataset list and the labels, each possibly missing. */
  datatype DataConfig = DataConfig(datasets: Option<seq<Dataset>>, labels: Option<seq<Value>>)

  /**
   * The data part of `initConfig`: a missing data object, dataset list or label
   * list becomes an empty one; given ones are kept as they are, not merged.
   */
  function InitData(data: Option<DataConfig>): (r: DataConfig)
    ensures r.datasets.Some? && r.labels.Some?
    ensures data.Some? && data.value.datasets.Some? ==> r.datasets == data.value.datasets
    ensures data.Some? && data.value.labels.Some? ==> r.labels == data.value.labels
    ensures data.None? || data.value.datasets.None? ==> r.datasets == Some([])
    ensures data.None? || data.value.labels.None? ==> r.labels == Some([])
  {
    var d := if data.Some? then data.value else DataConfig(None, None);
    DataConfig(
      if d.datasets.Some? then d.datasets else Some([]),
      if d.labels.Some? then d.labels else Some([]))
  }

  /** Initialising an initialised configuration changes nothing. */
  lemma InitDataIdempotent(data: Option<DataConfig>)
    ensures InitData(Some(InitData(data))) == InitData(data)
  {
  }

  // ----- visibility -----

  /**
   * `isDatasetVisible`: a boolean `hidden` flag in the chart's record
   * overrides the dataset's own; when the record's flag is null, the dataset
   * is visible unless it is hidden itself.
   */
  function Visible(metaHidden: Option<bool>, datasetHidden: bool): (r: bool)
    ensures metaHidden == Some(true) ==> !r
    ensures metaHidden == Some(false) ==> r
    ensures metaHidden == None ==> r == !datasetHidden
  {
    match metaHidden
    case Some(hidden) => !hidden
    case None => !datasetHidden
  }

  /** The visibility of a dataset on the chart `chartId`, whether or not its record exists yet. */
  function DatasetVisible(d: Dataset, chartId: nat): bool
    reads d, d.metas.Values
  {
    Visible(if chartId in d.metas then d.metas[chartId].hidden else None, d.hidden)
  }

  /** The records of the given datasets, for every chart. */
  function Records(ds: seq<Dataset>): set<object>
    reads set d | d in ds
  {
    set d, m | d in ds && m in d.metas.Values :: m
  }

  /** The visibility of each dataset of `ds` on the chart `chartId`. */
  function VisibleFlags(ds: seq<Dataset>, chartId: nat): (r: seq<bool>)
    reads (set d | d in ds), Records(ds)
    ensures |r| == |ds|
    ensures forall j :: 0 <= j < |ds| ==> r[j] == DatasetVisible(ds[j], chartId)
  {
    if |ds| == 0 then []
    else VisibleFlags(ds[..|ds| - 1], chartId) + [DatasetVisible(ds[|ds| - 1], chartId)]
  }

  /** Flags that agree with every dataset's visibility are its visibility flags. */
  lemma VisibleFlagsUnchanged(ds: seq<Dataset>, chartId: nat, flags: seq<bool>)
    requires |flags| == |ds|
    requires forall j :: 0 <= j < |ds| ==> DatasetVisible(ds[j], chartId) == flags[j]
    ensures VisibleFlags(ds, chartId) == flags
  {
  }

  /** The number of `true` entries. */
  function CountTrue(flags: seq<bool>): (n: nat)
    ensures n <= |flags|
  {
    if |flags| == 0 then 0
    else CountTrue(flags[..|flags| - 1]) + (if flags[|flags| - 1] then 1 else 0)
  }

  /** The count of `true` entries is the number of indices holding `true`. */
  lemma {:induction false} CountTrueIsIndexCount(flags: seq<bool>)
    ensures CountTrue(flags) == |set i | 0 <= i < |flags| && flags[i]|
  {
    if |flags| > 0 {
      var n := |flags| - 1;
      var init := flags[..n];
      CountTrueIsIndexCount(init);
      var before := set i | 0 <= i < |init| && init[i];
      var after := set i | 0 <= i < |flags| && flags[i];
      assert forall i :: 0 <= i < n ==> init[i] == flags[i];
      assert n !in before;
      if flags[n] {
        assert after == before + {n};
      } else {
        assert after == before;
      }
    }
  }

  // ----- axis ids -----

  function Digit(d: nat): (c: char)
    requires d < 10
    ensures c as int == '0' as int + d
  {
    ('0' as int + d) as char
  }

  /** `'' + n` for a non-negative integer: its decimal digits. */
  function Decimal(n: nat): (s: string)
    ensures 1 <= |s|
    ensures n < 10 <==> |s| == 1
  {
    if n < 10 then [Digit(n)] else Decimal(n / 10) + [Digit(n % 10)]
  }

  /** Distinct numbers have distinct decimal spellings. */
  lemma {:induction false} DecimalInjective(a: nat, b: nat)
    requires Decimal(a) == Decimal(b)
    ensures a == b
  {
    if a < 10 || b < 10 {
      assert a < 10 && b < 10;
      assert Decimal(a)[0] == Digit(a) && Decimal(b)[0] == Digit(b);
    } else {
      var sa, sb := Decimal(a), Decimal(b);
      assert sa[|sa| - 1] == Digit(a % 10) && sb[|sb| - 1] == Digit(b % 10);
      assert sa[..|sa| - 1] == Decimal(a / 10) && sb[..|sb| - 1] == Decimal(b / 10);
      DecimalInjective(a / 10, b / 10);
    }
  }

  /** `id || fallback`: a missing or empty id gives way to the fallback. */
  function IdOr(id: Option<string>, fallback: string): string
  {
    if id.Some? && id.value != "" then id.value else fallback
  }

  function XAxisDefaultId(index: nat): string { "x-axis-" + Decimal(index) }

  function YAxisDefaultId(index: nat): string { "y-axis-" + Decimal(index) }

  const ScaleDefaultId: string := "scale"

  /** The default axis ids never collide: not within a direction, not across directions, not with `scale`. */
  lemma DefaultIdsDistinct(i: nat, j: nat)
    ensures i != j ==> XAxisDefaultId(i) != XAxisDefaultId(j) && YAxisDefaultId(i) != YAxisDefaultId(j)
    ensures XAxisDefaultId(i) != YAxisDefaultId(j)
    ensures XAxisDefaultId(i) != ScaleDefaultId && YAxisDefaultId(i) != ScaleDefaultId
  {
    var px, py := "x-axis-", "y-axis-";
    assert XAxisDefaultId(i)[0] == 'x' && YAxisDefaultId(j)[0] == 'y';
    if XAxisDefaultId(i) == XAxisDefaultId(j) {
      assert Decimal(i) == XAxisDefaultId(i)[|px|..] && Decimal(j) == XAxisDefaultId(j)[|px|..];
      DecimalInjective(i, j);
    }
    if YAxisDefaultId(i) == YAxisDefaultId(j) {
      assert Decimal(i) == YAxisDefaultId(i)[|py|..] && Decimal(j) == YAxisDefaultId(j)[|py|..];
      DecimalInjective(i, j);
    }
    assert XAxisDefaultId(i)[1] == '-' && YAxisDefaultId(i)[1] == '-' && ScaleDefaultId[1] == 'c';
  }

  /**
   * One `each` pass of `ensureScalesHaveIDs` over the axes of one direction:
   * every axis keeps a non-empty id of its own and otherwise gets the
   * default for its index.
   */
  method WithDefaultIds(ids: seq<Option<string>>, defaultId: nat -> string) returns (r: seq<Option<string>>)
    ensures |r| == |ids|
    ensures forall k :: 0 <= k < |ids| ==> r[k] == Some(IdOr(ids[k], defaultId(k)))
  {
    r := ids;
    var index := 0;
    while index < |r|
      invariant 0 <= index <= |r| == |ids|
      invariant forall k :: 0 <= k < index ==> r[k] == Some(IdOr(ids[k], defaultId(k)))
      invariant forall k :: index <= k < |r| ==> r[k] == ids[k]
    {
      r := r[index := Some(IdOr(r[index], defaultId(index)))];
      index := index + 1;
    }
  }

  // ----- combo detection -----

  /** Some two consecutive dataset types differ. */
  predicate Mixed(types: seq<string>)
  {
    exists i :: 1 <= i < |types| && types[i] != types[i - 1]
  }

  /** A chart whose datasets all have one type is not mixed. */
  lemma UniformIsNotMixed(types: seq<string>, t: string)
    requires forall i :: 0 <= i < |types| ==> types[i] == t
    ensures !Mixed(types)
  {
  }

  /** `meta.type || dataset.type || config.type`. */
  function ResolvedType(metaType: Option<string>, datasetType: Option<string>, chartType: string): (r: string)
    ensures metaType.Some? && metaType.value != "" ==> r == metaType.value
    ensures (metaType.None? || metaType.value == "") ==> r == IdOr(datasetType, chartType)
  {
    if metaType.Some? && metaType.value != "" then metaType.value else IdOr(datasetType, chartType)
  }

  /** A chart: its id, its datasets and the options the bookkeeping reads and writes. */
  class Chart {
    const id: nat
    var datasets: seq<Dataset>         // `data.datasets`
    var chartType: string              // `config.type`
    var isCombo: bool
    var xAxisIds: seq<Option<string>>  // the `id` of each `options.scales.xAxes` entry
    var yAxisIds: seq<Option<string>>  // the `id` of each `options.scales.yAxes` entry
    var scaleId: Option<Option<string>> // the `id` of `options.scale`, when that exists

    constructor (id: nat, data: Option<DataConfig>, chartType: string,
                 xAxisIds: seq<Option<string>>, yAxisIds: seq<Option<string>>, scaleId: Option<Option<string>>)
      ensures this.id == id && datasets == InitData(data).datasets.value && this.chartType == chartType
      ensures !isCombo
      ensures this.xAxisIds == xAxisIds && this.yAxisIds == yAxisIds && this.scaleId == scaleId
    {
      this.id := id;
      datasets := InitData(data).datasets.value;
      this.chartType := chartType;
      isCombo := false;
      this.xAxisIds := xAxisIds;
      this.yAxisIds := yAxisIds;
      this.scaleId := scaleId;
    }

    /**
     * `getDatasetMeta(i)`: the dataset's record for this chart, created with
     * every field null on first request and returned unchanged afterwards.
     */
    method GetDatasetMeta(datasetIndex: nat) returns (meta: DatasetMeta)
      requires datasetIndex < |datasets|
      modifies (datasets[datasetIndex] as Dataset)`metas
      ensures var d := datasets[datasetIndex];
        id in d.metas && d.metas[id] == meta
      ensures var d := datasets[datasetIndex];
        id in old(d.metas) ==> meta == old(d.metas[id]) && d.metas == old(d.metas)
      ensures var d := datasets[datasetIndex];
        id !in old(d.metas) ==>
          fresh(meta) && d.metas == old(d.metas)[id := meta] &&
          meta.typeName == None && meta.hidden == None && meta.xAxisID == None &&
          meta.yAxisID == None && meta.controller == null
      ensures DatasetVisible(datasets[datasetIndex], id) == old(DatasetVisible(datasets[datasetIndex], id))
    {
      var dataset := datasets[datasetIndex];
      if id in dataset.metas {
        meta := dataset.metas[id];
      } else {
        meta := new DatasetMeta();
        dataset.metas := dataset.metas[id := meta];
      }
    }

    /** `isDatasetVisible(i)`: the dataset's visibility; its record is created if missing. */
    method IsDatasetVisible(datasetIndex: nat) returns (r: bool)
      requires datasetIndex < |datasets|
      modifies (datasets[datasetIndex] as Dataset)`metas
      ensures r == old(DatasetVisible(datasets[datasetIndex], id))
      ensures r == DatasetVisible(datasets[datasetIndex], id)
      ensures var d := datasets[datasetIndex];
        id in d.metas && (id in old(d.metas) ==> d.metas == old(d.metas))
      ensures var d := datasets[datasetIndex];
        id !in old(d.metas) ==> fresh(d.metas[id]) && d.metas == old(d.metas)[id := d.metas[id]]
    {
      var meta := GetDatasetMeta(datasetIndex);
      r := Visible(meta.hidden, datasets[datasetIndex].hidden);
    }

    /**
     * `getVisibleDatasetCount()`: how many datasets are visible. Asking
     * creates missing records, which does not change any visibility.
     */
    method GetVisibleDatasetCount() returns (count: nat)
      modifies (set d | d in datasets)`metas
      ensures datasets == old(datasets)
      ensures VisibleFlags(datasets, id) == old(VisibleFlags(datasets, id))
      ensures count == CountTrue(VisibleFlags(datasets, id))
    {
      ghost var before := VisibleFlags(datasets, id);
      count := 0;
      var i := 0;
      while i < |datasets|
        invariant 0 <= i <= |datasets| && datasets == old(datasets)
        invariant count == CountTrue(before[..i])
        invariant forall j :: 0 <= j < |datasets| ==> DatasetVisible(datasets[j], id) == before[j]
      {
        var visible := IsDatasetVisible(i);
        assert before[..i + 1][..i] == before[..i];
        if visible {
          count := count + 1;
        }
        i := i + 1;
      }
      assert before == before[..i];
      VisibleFlagsUnchanged(datasets, id, before);
    }

    /**
     * `ensureScalesHaveIDs()`: every x axis without an id gets `x-axis-<index>`,
     * every y axis `y-axis-<index>`, and the single `scale`, when there is one,
     * `scale`; ids already set are kept.
     */
    method EnsureScalesHaveIds()
      modifies this`xAxisIds, this`yAxisIds, this`scaleId
      ensures |xAxisIds| == |old(xAxisIds)| && |yAxisIds| == |old(yAxisIds)|
      ensures forall k :: 0 <= k < |xAxisIds| ==> xAxisIds[k] == Some(IdOr(old(xAxisIds[k]), XAxisDefaultId(k)))
      ensures forall k :: 0 <= k < |yAxisIds| ==> yAxisIds[k] == Some(IdOr(old(yAxisIds[k]), YAxisDefaultId(k)))
      ensures old(scaleId).None? ==> scaleId == None
      ensures old(scaleId).Some? ==> scaleId == Some(Some(IdOr(old(scaleId).value, ScaleDefaultId)))
    {
      xAxisIds := WithDefaultIds(xAxisIds, XAxisDefaultId);
      yAxisIds := WithDefaultIds(yAxisIds, YAxisDefaultId);
      if scaleId.Some? {
        scaleId := Some(Some(IdOr(scaleId.value, ScaleDefaultId)));
      }
    }

    /**
     * The type step of `buildOrUpdateControllers` for one dataset: the record's
     * type, set from the dataset's type or else the chart's when empty.
     */
    method SettleType(datasetIndex: nat) returns (t: string)
      requires datasetIndex < |datasets|
      modifies (datasets[datasetIndex] as Dataset)`metas, datasets[datasetIndex].metas.Values`typeName
      ensures var d := datasets[datasetIndex];
        var before := if id in old(d.metas) then old(d.metas[id].typeName) else None;
        t == ResolvedType(before, d.typeName, chartType)
      ensures var d := datasets[datasetIndex];
        id in d.metas && d.metas[id].typeName == Some(t)
      ensures var d := datasets[datasetIndex];
        id in old(d.metas) ==> d.metas == old(d.metas)
      ensures var d := datasets[datasetIndex];
        id !in old(d.metas) ==> fresh(d.metas[id]) && d.metas == old(d.metas)[id := d.metas[id]]
      ensures var m := datasets[datasetIndex].metas[id];
        id !in old(datasets[datasetIndex].metas) ==>
          m.hidden == None && m.xAxisID == None && m.yAxisID == None && m.controller == null
      ensures DatasetVisible(datasets[datasetIndex], id) == old(DatasetVisible(datasets[datasetIndex], id))
    {
      var meta := GetDatasetMeta(datasetIndex);
      if meta.typeName.None? || meta.typeName.value == "" {
        var dataset := datasets[datasetIndex];
        meta.typeName := Some(IdOr(dataset.typeName, chartType));
      }
      t := meta.typeName.value;
    }

    /** The combo step of `buildOrUpdateControllers`: `isCombo` is set when two consecutive types differ, and never reset. */
    method DetectCombo(types: seq<string>)
      modifies this`isCombo
      ensures isCombo <==> old(isCombo) || Mixed(types)
    {
      if |types| > 1 {
        var i := 1;
        while i < |types|
          invariant 1 <= i <= |types|
          invariant forall k :: 1 <= k < i ==> types[k] == types[k - 1]
          invariant isCombo == old(isCombo)
        {
          if types[i] != types[i - 1] {
            isCombo := true;
            break;
          }
          i := i + 1;
        }
      }
    }

    /**
     * The type and combo logic of `buildOrUpdateControllers`: settles the type
     * of every dataset in order, collects the types, and marks the chart as a
     * combo when two consecutive types differ.
     */
    method BuildOrUpdateControllerTypes() returns (types: seq<string>)
      modifies (set d | d in datasets)`metas, (set d, m | d in datasets && m in d.metas.Values :: m)`typeName, this`isCombo
      ensures |types| == |datasets|
      ensures isCombo <==> old(isCombo) || Mixed(types)
    {
      ghost var records := set d, m | d in datasets && m in d.metas.Values :: m;
      types := [];
      var datasetIndex := 0;
      while datasetIndex < |datasets|
        invariant 0 <= datasetIndex <= |datasets| && |types| == datasetIndex
        invariant datasets == old(datasets) && isCombo == old(isCombo)
        invariant forall d, m :: d in datasets && m in d.metas.Values ==> m in records || fresh(m)
      {
        assert forall m :: m in datasets[datasetIndex].metas.Values ==> m in records || fresh(m);
        var t := SettleType(datasetIndex);
        types := types + [t];
        datasetIndex := datasetIndex + 1;
      }
      DetectCombo(types);
    }
  }
}
