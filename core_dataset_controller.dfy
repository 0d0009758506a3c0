/**
 * Incremental synchronisation of a dataset's elements with its data array
 * (src/core/core.datasetController.js).
 *
 * A data array can be instrumented: its five mutators (`push`, `pop`,
 * `shift`, `splice`, `unshift`) first do their usual work and then call the
 * matching `onData*` handler of every registered listener, with the same
 * arguments. Each listener is a dataset controller, which keeps the element
 * list of its dataset (`meta.data`) index-aligned with the data.
 *
 * Elements are known here by identity only: a `MetaElement` records the
 * serial number of its creation, the index it was created for and whether it
 * received the "reset" update that makes it animate in. Their animation state
 * is the business of module Element.
 */
module DatasetSync {
  import opened Js

  datatype MetaElement = MetaElement(serial: nat, index: int, reset: bool)

  /** One call of an instrumented mutator, with its arguments. */
  datatype ArrayCall =
    | Push(values: seq<Value>)
    | Pop
    | Shift
    | Splice(start: int, deleteCount: int, values: seq<Value>)
    | SpliceToEnd(start: int)          // `splice(start)`, with a single argument
    | Unshift(values: seq<Value>)

  /** What the base mutator returns. */
  datatype CallResult =
    | NewLength(n: nat)                // push, unshift
    | Removed(value: Option<Value>)    // pop, shift (undefined on an empty array)
    | RemovedRun(values: seq<Value>)   // splice

  /** The data after the base mutator ran (JavaScript `Array.prototype` semantics). */
  function Applied(data: seq<Value>, call: ArrayCall): seq<Value>
  {
    match call
    case Push(vs) => data + vs
    case Pop => if |data| == 0 then data else data[..|data| - 1]
    case Shift => if |data| == 0 then data else data[1..]
    case Splice(start, count, vs) => SpliceSeq(data, start, count, vs)
    case SpliceToEnd(start) => data[..RelativeIndex(start, |data|)]
    case Unshift(vs) => vs + data
  }

  /** The base mutator's return value. */
  function Returned(data: seq<Value>, call: ArrayCall): CallResult
  {
    match call
    case Push(vs) => NewLength(|data| + |vs|)
    case Pop => Removed(if |data| == 0 then None else Some(data[|data| - 1]))
    case Shift => Removed(if |data| == 0 then None else Some(data[0]))
    case Splice(start, count, _) => RemovedRun(SpliceRemoved(data, start, count))
    case SpliceToEnd(start) => RemovedRun(data[RelativeIndex(start, |data|)..])
    case Unshift(vs) => NewLength(|data| + |vs|)
  }

  /** A controller's element list together with the number of elements it has created so far. */
  datatype ElementList = ElementList(elements: seq<MetaElement>, created: nat)

  /** Elements created in one run, for consecutive indices from `start`. */
  function Fresh(serial: nat, start: int, count: nat, reset: bool): seq<MetaElement>
  {
    seq(count, i requires 0 <= i < count => MetaElement(serial + i, start + i, reset))
  }

  /** `insertElements(start, count)`: `count` times, create a reset element for `start + i` and splice it in there. */
  function Inserted(list: ElementList, start: int, count: int): ElementList
    decreases count
  {
    if count <= 0 then list
    else
      var prev := Inserted(list, start, count - 1);
      var element := MetaElement(prev.created, start + count - 1, true);
      var k := RelativeIndex(start + count - 1, |prev.elements|);
      // meta.data.splice(start + count - 1, 0, element)
      ElementList(prev.elements[..k] + [element] + prev.elements[k..], prev.created + 1)
  }

  /** `resyncElements` for a data array of length `dataLength`. */
  function Resynced(list: ElementList, dataLength: nat): ElementList
  {
    var numMeta := |list.elements|;
    if dataLength < numMeta then
      ElementList(SpliceSeq(list.elements, dataLength, numMeta - dataLength, []), list.created)
    else if dataLength > numMeta then
      Inserted(list, numMeta, dataLength - numMeta)
    else list
  }

  /** `addElements` for a data array of length `dataLength`: fill in every missing index below it. */
  function Added(list: ElementList, dataLength: nat): ElementList
  {
    if dataLength <= |list.elements| then list
    else
      var missing := dataLength - |list.elements|;
      ElementList(list.elements + Fresh(list.created, |list.elements|, missing, false), list.created + missing)
  }

  /**
   * `onDataPush` as written: `insertElements(data.length - 1, arguments.length)`.
   * The start is right for a single pushed value only.
   */
  function PushedAsWritten(list: ElementList, dataLength: int, count: nat): ElementList
  {
    Inserted(list, dataLength - 1, count)
  }

  /**
   * The `onData*` handler a listener runs after `call`; `dataLength` is the
   * length of the listener's own dataset data at that moment (only
   * `onDataPush` reads it). A push inserts its elements from
   * `data.length - count`, the index of the first pushed value (see
   * PushedAsWritten for the start the code uses).
   */
  function Reacted(list: ElementList, dataLength: int, call: ArrayCall): ElementList
  {
    match call
    case Push(vs) => Inserted(list, dataLength - |vs|, |vs|)
    case Pop =>
      var e := list.elements;
      ElementList(if |e| == 0 then e else e[..|e| - 1], list.created)
    case Shift =>
      var e := list.elements;
      ElementList(if |e| == 0 then e else e[1..], list.created)
    case Splice(start, count, vs) =>
      Inserted(ElementList(SpliceSeq(list.elements, start, count, []), list.created), start, |vs|)
    case SpliceToEnd(start) =>
      // onDataSplice(start): `count` is undefined, so `meta.data.splice(start, undefined)`
      // removes nothing, and `insertElements(start, -1)` inserts nothing
      list
    case Unshift(vs) => Inserted(list, 0, |vs|)
  }

  /** The handler run `times` times in a row (a listener registered `times` times). */
  function ReactedTimes(list: ElementList, dataLength: int, call: ArrayCall, times: nat): ElementList
  {
    if times == 0 then list else Reacted(ReactedTimes(list, dataLength, call, times - 1), dataLength, call)
  }

  // ---------------------------------------------------------------------------
  // Properties of the synchronisation

  /** Every insertion adds exactly one element, wherever it lands. */
  lemma {:induction false} InsertedLength(list: ElementList, start: int, count: int)
    ensures |Inserted(list, start, count).elements| == |list.elements| + (if count < 0 then 0 else count)
    ensures Inserted(list, start, count).created == list.created + (if count < 0 then 0 else count)
    decreases count
  {
    if count > 0 {
      InsertedLength(list, start, count - 1);
    }
  }

  /**
   * For a non-negative start, `insertElements` puts its new elements as one
   * contiguous run, in creation order, at `start` (or at the end when `start`
   * is past it); the existing elements keep their order around the run.
   */
  lemma {:induction false} InsertedAsBlock(list: ElementList, start: nat, count: nat)
    ensures var p := if start <= |list.elements| then start else |list.elements|;
      Inserted(list, start, count).elements
        == list.elements[..p] + Fresh(list.created, start, count, true) + list.elements[p..]
    ensures Inserted(list, start, count).created == list.created + count
  {
    if count > 0 {
      InsertedAsBlock(list, start, count - 1);
      InsertedBlockStep(list.elements, list.created, start, count);
    } else {
      var e := list.elements;
      var p := if start <= |e| then start else |e|;
      assert Fresh(list.created, start, 0, true) == [];
      assert e[..p] + e[p..] == e;
    }
  }

  /** The step of InsertedAsBlock: one more insertion extends the run by its next element. */
  lemma InsertedBlockStep(e: seq<MetaElement>, created: nat, start: nat, count: nat)
    requires count > 0
    ensures var p := if start <= |e| then start else |e|;
      var prev := e[..p] + Fresh(created, start, count - 1, true) + e[p..];
      var k := RelativeIndex(start + count - 1, |prev|);
      prev[..k] + [MetaElement(created + count - 1, start + count - 1, true)] + prev[k..]
        == e[..p] + Fresh(created, start, count, true) + e[p..]
  {
    var p := if start <= |e| then start else |e|;
    var element := MetaElement(created + count - 1, start + count - 1, true);
    var front := e[..p] + Fresh(created, start, count - 1, true);
    InsertAtSplit(front, e[p..], start + count - 1, element);
    FreshSnoc(created, start, count, true);
    SeqAssoc(e[..p], Fresh(created, start, count - 1, true), [element], e[p..]);
  }

  /** Inserting at (or past) the end of `front` puts the new element between `front` and `back`. */
  lemma InsertAtSplit<T>(front: seq<T>, back: seq<T>, start: int, x: T)
    requires |front| <= start
    requires back != [] ==> start == |front|
    ensures var k := RelativeIndex(start, |front + back|);
      (front + back)[..k] + [x] + (front + back)[k..] == front + [x] + back
  {
    var k := RelativeIndex(start, |front + back|);
    assert k == |front|;
    assert (front + back)[..k] == front;
    assert (front + back)[k..] == back;
  }


  /** A run of fresh elements, one longer. */
  lemma FreshSnoc(serial: nat, start: int, count: nat, reset: bool)
    requires count > 0
    ensures Fresh(serial, start, count, reset)
      == Fresh(serial, start, count - 1, reset) + [MetaElement(serial + count - 1, start + count - 1, reset)]
  {
  }

  lemma SeqAssoc<T>(a: seq<T>, b: seq<T>, c: seq<T>, d: seq<T>)
    ensures a + b + c + d == a + (b + c) + d
  {
  }



  /**
   * After `resyncElements` the element list is exactly as long as the data;
   * elements at indices below both lengths are untouched, and missing ones
   * are appended as new reset elements for their own index.
   */
  lemma ResyncedMatchesData(list: ElementList, dataLength: nat)
    ensures |Resynced(list, dataLength).elements| == dataLength
    ensures forall i :: 0 <= i < dataLength && i < |list.elements| ==>
      Resynced(list, dataLength).elements[i] == list.elements[i]
    ensures forall i :: |list.elements| <= i < dataLength ==>
      Resynced(list, dataLength).elements[i] == MetaElement(list.created + i - |list.elements|, i, true)
  {
    var n := |list.elements|;
    if dataLength > n {
      InsertedAsBlock(list, n, dataLength - n);
      assert list.elements[n..] == [];
    }
  }

  /**
   * `addElements` keeps every element it finds and creates (without the reset
   * update) only the ones missing below the data length.
   */
  lemma AddedKeepsExisting(list: ElementList, dataLength: nat)
    ensures var r := Added(list, dataLength);
      |r.elements| == if dataLength <= |list.elements| then |list.elements| else dataLength
    ensures forall i :: 0 <= i < |list.elements| ==> Added(list, dataLength).elements[i] == list.elements[i]
    ensures forall i :: |list.elements| <= i < dataLength ==>
      Added(list, dataLength).elements[i] == MetaElement(list.created + i - |list.elements|, i, false)
  {
  }

  /**
   * Count invariant: when the element list matched the data before a call,
   * it matches the data after the call and its handler (the one-argument
   * `splice(start)` excepted, see SpliceToEndKeepsElements).
   */
  lemma TrackedCallKeepsCount(list: ElementList, data: seq<Value>, call: ArrayCall)
    requires |list.elements| == |data|
    requires !call.SpliceToEnd?
    ensures |Reacted(list, |Applied(data, call)|, call).elements| == |Applied(data, call)|
  {
    var after := Applied(data, call);
    match call
    case Push(vs) => InsertedLength(list, |after| - |vs|, |vs|);
    case Pop =>
    case Shift =>
    case Splice(start, count, vs) =>
      InsertedLength(ElementList(SpliceSeq(list.elements, start, count, []), list.created), start, |vs|);
    case Unshift(vs) => InsertedLength(list, 0, |vs|);
  }

  /**
   * A push puts one new reset element per value at the tail; on a list that
   * matched the data, each is created for the index of its own value.
   */
  lemma PushAppendsAtTail(list: ElementList, data: seq<Value>, values: seq<Value>)
    requires |list.elements| <= |data|
    ensures Reacted(list, |data| + |values|, Push(values))
      == ElementList(list.elements + Fresh(list.created, |data|, |values|, true), list.created + |values|)
    ensures |list.elements| == |data| ==>
      var r := Reacted(list, |data| + |values|, Push(values)).elements;
      |r| == |data| + |values| &&
      forall i :: |data| <= i < |r| ==> r[i] == MetaElement(list.created + i - |data|, i, true)
  {
    InsertedAsBlock(list, |data|, |values|);
    assert list.elements[|list.elements|..] == [];
  }

  /**
   * `onDataPush` as written, on a list that matched the data, when two or
   * more values are pushed: the first new element sits at index `|data|` but
   * is created for index `|data| + |values| - 1`, and the last one for an
   * index past the end of the data.
   */
  lemma PushAsWrittenMislabels(list: ElementList, data: seq<Value>, values: seq<Value>)
    requires |list.elements| == |data| && |values| >= 2
    ensures var r := PushedAsWritten(list, |data| + |values|, |values|).elements;
      |r| == |data| + |values|
      && r[|data|] == MetaElement(list.created, |data| + |values| - 1, true)
      && r[|data|].index != |data|
      && r[|r| - 1].index >= |data| + |values|
  {
    InsertedAsBlock(list, |data| + |values| - 1, |values|);
    assert list.elements[|list.elements|..] == [];
  }

  /** `onDataUnshift` puts one new reset element per value at the head. */
  lemma UnshiftPrepends(list: ElementList, values: seq<Value>)
    ensures Reacted(list, 0, Unshift(values))
      == ElementList(Fresh(list.created, 0, |values|, true) + list.elements, list.created + |values|)
  {
    InsertedAsBlock(list, 0, |values|);
    assert list.elements[..0] == [];
  }

  /**
   * Index alignment under `splice` with a non-negative start: the data and the
   * elements lose the same run and gain a run of the same length at the same
   * place; surviving elements stay beside their data.
   */
  lemma SpliceKeepsAlignment(list: ElementList, data: seq<Value>, start: nat, count: int, values: seq<Value>)
    requires |list.elements| == |data|
    ensures var k := RelativeIndex(start, |data|);
      var d := SpliceDeleteCount(|data|, start, count);
      && Applied(data, Splice(start, count, values)) == data[..k] + values + data[k + d..]
      && Reacted(list, 0, Splice(start, count, values)).elements
           == list.elements[..k] + Fresh(list.created, start, |values|, true) + list.elements[k + d..]
  {
    var e := list.elements;
    var k := RelativeIndex(start, |data|);
    var d := SpliceDeleteCount(|data|, start, count);
    var removed := ElementList(SpliceSeq(e, start, count, []), list.created);
    assert removed.elements == e[..k] + e[k + d..];
    InsertedAsBlock(removed, start, |values|);
    if start <= |removed.elements| {
      assert removed.elements[..start] == e[..k];
      assert removed.elements[start..] == e[k + d..];
    } else {
      assert removed.elements[..|removed.elements|] == e[..k];
    }
  }

  /** `onDataPop` drops the last element and `onDataShift` the first; the rest keep their order. */
  lemma PopShiftKeepAlignment(list: ElementList, data: seq<Value>)
    requires |list.elements| == |data| > 0
    ensures Applied(data, Pop) == data[..|data| - 1]
    ensures Reacted(list, 0, Pop).elements == list.elements[..|data| - 1]
    ensures Applied(data, Shift) == data[1..]
    ensures Reacted(list, 0, Shift).elements == list.elements[1..]
  {
  }

  /**
   * A one-argument `splice(start)` removes the data's tail, but the handler
   * leaves the elements as they were: the counts differ afterwards by exactly
   * the number of values removed, until the next `resyncElements`.
   */
  lemma SpliceToEndKeepsElements(list: ElementList, data: seq<Value>, start: int)
    requires |list.elements| == |data|
    ensures Reacted(list, 0, SpliceToEnd(start)) == list
    ensures |data| - |Applied(data, SpliceToEnd(start))| == |data| - RelativeIndex(start, |data|)
    ensures Resynced(Reacted(list, 0, SpliceToEnd(start)), |Applied(data, SpliceToEnd(start))|).elements
      == list.elements[..RelativeIndex(start, |data|)]
  {
  }

  // ---------------------------------------------------------------------------
  // The objects

  /** A dataset of the chart configuration. */
  class Dataset {
    var data: DataArray?              // `dataset.data`, possibly undefined
    var hidden: bool                  // `dataset.hidden`, by truthiness
    var typeName: Option<string>      // `dataset.type`
    var xAxisID: Option<string>
    var yAxisID: Option<string>
    var metas: map<nat, DatasetMeta>  // `dataset._meta`, keyed by chart id

    constructor (data: DataArray?, hidden: bool, typeName: Option<string>, xAxisID: Option<string>, yAxisID: Option<string>)
      ensures this.data == data && this.hidden == hidden && this.typeName == typeName
      ensures this.xAxisID == xAxisID && this.yAxisID == yAxisID && metas == map[]
    {
      this.data := data;
      this.hidden := hidden;
      this.typeName := typeName;
      this.xAxisID := xAxisID;
      this.yAxisID := yAxisID;
      metas := map[];
    }
  }

  /** A chart's per-dataset record (`dataset._meta[chart.id]`). */
  class DatasetMeta {
    var typeName: Option<string>   // `type`
    var hidden: Option<bool>          // overrides `dataset.hidden` when set
    var xAxisID: Option<string>
    var yAxisID: Option<string>
    var controller: DatasetController?

    /** The record `getDatasetMeta` creates: every field null. */
    constructor ()
      ensures typeName == None && hidden == None && xAxisID == None && yAxisID == None && controller == null
    {
      typeName, hidden, xAxisID, yAxisID, controller := None, None, None, None, null;
    }
  }

  /** A data array that may carry the `_chartjs` instrumentation stub. */
  class DataArray {
    var items: seq<Value>
    /** `_chartjs`: absent while not instrumented, else the listeners in registration order. */
    var stub: Option<seq<DatasetController>>

    /** The stub only exists while it has a listener. */
    ghost predicate Valid()
      reads this
    {
      stub.Some? ==> stub.value != []
    }

    function Listeners(): seq<DatasetController>
      reads this
    {
      if stub.Some? then stub.value else []
    }

    constructor (items: seq<Value>)
      ensures this.items == items && stub == None && Valid()
    {
      this.items := items;
      stub := None;
    }

    /** `listenArrayEvents(array, listener)`. */
    method Listen(listener: DatasetController)
      requires Valid()
      modifies this`stub
      ensures Valid()
      ensures stub == Some(old(Listeners()) + [listener])
    {
      if stub.Some? {
        // already instrumented: only register one more listener
        stub := Some(stub.value + [listener]);
      } else {
        // instrument the array with a stub holding this one listener
        assert [] + [listener] == [listener];
        stub := Some([listener]);
      }
    }

    /** `unlistenArrayEvents(array, listener)`. */
    method Unlisten(listener: DatasetController)
      requires Valid()
      modifies this`stub
      ensures Valid()
      ensures old(stub) == None ==> stub == None
      ensures old(stub).Some? ==>
        var rest := RemoveFirst(old(stub).value, listener);
        stub == if rest == [] then None else Some(rest)
    {
      if stub == None {
        return;
      }
      var listeners := stub.value;
      var index := Find(listeners, listener);
      if index != -1 {
        listeners := listeners[..index] + listeners[index + 1..];
      }
      if |listeners| > 0 {
        stub := Some(listeners);
        return;
      }
      stub := None;
    }

    /**
     * An instrumented mutator: the base mutation first, then the matching
     * handler on every listener in order (as often as it is registered), and
     * the base result is returned.
     */
    method Invoke(call: ArrayCall) returns (result: CallResult)
      requires Valid()
      requires call.Push? ==> forall l :: l in Listeners() ==> l.dataset.data != null
      modifies this`items, (set l | l in Listeners())`elements, (set l | l in Listeners())`created
      ensures items == Applied(old(items), call)
      ensures result == Returned(old(items), call)
      ensures forall l :: l in Listeners() ==>
        l.State() == ReactedTimes(old(l.State()), l.DataLength(), call, multiset(Listeners())[l])
    {
      result := Returned(items, call);
      items := Applied(items, call);
      NotifyListeners(Listeners(), call);
    }
  }

  /** A possibly undefined array, as a set of at most one array. */
  function Present(a: DataArray?): set<DataArray>
  {
    if a == null then {} else {a}
  }

  /** The synchronisation part of a dataset controller. */
  class DatasetController {
    const dataset: Dataset            // `getDataset()`
    const meta: DatasetMeta           // `getMeta()`
    var elements: seq<MetaElement>    // `meta.data`
    var datasetElement: Option<nat>   // `meta.dataset`, by serial number
    var created: nat                  // elements created so far: the next serial number
    var observed: DataArray?          // `_data`, the array this controller listens to

    constructor (dataset: Dataset, meta: DatasetMeta)
      ensures this.dataset == dataset && this.meta == meta
      ensures elements == [] && datasetElement == None && created == 0 && observed == null
    {
      this.dataset := dataset;
      this.meta := meta;
      elements := [];
      datasetElement := None;
      created := 0;
      observed := null;
    }

    function State(): ElementList
      reads this
    {
      ElementList(elements, created)
    }

    /** `getDataset().data.length`, as read by `onDataPush`. */
    function DataLength(): int
      reads dataset, dataset.data
    {
      if dataset.data == null then 0 else |dataset.data.items|
    }

    /** `linkScales`: bind unset axis ids to the dataset's own or else to the first axis of each direction. */
    method LinkScales(firstXAxisID: string, firstYAxisID: string)
      modifies meta`xAxisID, meta`yAxisID
      ensures old(meta.xAxisID) != None ==> meta.xAxisID == old(meta.xAxisID)
      ensures old(meta.yAxisID) != None ==> meta.yAxisID == old(meta.yAxisID)
      ensures old(meta.xAxisID) == None ==>
        meta.xAxisID == Some(if dataset.xAxisID.Some? && dataset.xAxisID.value != "" then dataset.xAxisID.value else firstXAxisID)
      ensures old(meta.yAxisID) == None ==>
        meta.yAxisID == Some(if dataset.yAxisID.Some? && dataset.yAxisID.value != "" then dataset.yAxisID.value else firstYAxisID)
    {
      if meta.xAxisID == None {
        meta.xAxisID := Some(if dataset.xAxisID.Some? && dataset.xAxisID.value != "" then dataset.xAxisID.value else firstXAxisID);
      }
      if meta.yAxisID == None {
        meta.yAxisID := Some(if dataset.yAxisID.Some? && dataset.yAxisID.value != "" then dataset.yAxisID.value else firstYAxisID);
      }
    }

    /** `addElements`: create the elements missing below the data length, then the dataset element if absent. */
    method AddElements()
      modifies this`elements, this`created, this`datasetElement
      ensures var n := if dataset.data == null then 0 else |dataset.data.items|;
        var added := Added(old(State()), n);
        elements == added.elements
        && (old(datasetElement) == None ==> datasetElement == Some(added.created) && created == added.created + 1)
        && (old(datasetElement) != None ==> datasetElement == old(datasetElement) && created == added.created)
    {
      var n := if dataset.data == null then 0 else |dataset.data.items|;
      var i := 0;
      while i < n
        invariant 0 <= i <= n
        invariant State() == Added(old(State()), i)
        invariant datasetElement == old(datasetElement)
      {
        if i >= |elements| {
          // metaData[i] is undefined: create it
          elements := elements + [MetaElement(created, i, false)];
          created := created + 1;
        }
        i := i + 1;
      }
      if datasetElement == None {
        datasetElement := Some(created);
        created := created + 1;
      }
    }

    /** `addElementAndReset(index)`. */
    method AddElementAndReset(index: int)
      modifies this`elements, this`created
      ensures State() == Inserted(old(State()), index, 1)
    {
      var element := MetaElement(created, index, true);
      created := created + 1;
      elements := SpliceSeq(elements, index, 0, [element]);
      SpliceInsertsOne(old(elements), index, element);
    }

    /** `insertElements(start, count)`. */
    method InsertElements(start: int, count: int)
      modifies this`elements, this`created
      ensures State() == Inserted(old(State()), start, count)
    {
      var i := 0;
      while i < count
        invariant 0 <= i <= if count < 0 then 0 else count
        invariant State() == Inserted(old(State()), start, i)
      {
        AddElementAndReset(start + i);
        i := i + 1;
      }
      assert count <= 0 ==> Inserted(old(State()), start, count) == old(State());
    }

    /** `resyncElements`. */
    method ResyncElements()
      requires dataset.data != null
      modifies this`elements, this`created
      ensures State() == Resynced(old(State()), |dataset.data.items|)
    {
      var numMeta := |elements|;
      var numData := |dataset.data.items|;
      if numData < numMeta {
        elements := SpliceSeq(elements, numData, numMeta - numData, []);
      } else if numData > numMeta {
        InsertElements(numMeta, numData - numMeta);
      }
    }

    /** `onDataPush(...values)`, with `count` values, inserting from the index of the first one. */
    method OnDataPush(count: nat)
      requires dataset.data != null
      modifies this`elements, this`created
      ensures State() == Inserted(old(State()), |dataset.data.items| - count, count)
    {
      InsertElements(|dataset.data.items| - count, count);
    }

    method OnDataPop()
      modifies this`elements
      ensures elements == if old(elements) == [] then [] else old(elements)[..|old(elements)| - 1]
    {
      if |elements| > 0 {
        elements := elements[..|elements| - 1];
      }
    }

    method OnDataShift()
      modifies this`elements
      ensures elements == if old(elements) == [] then [] else old(elements)[1..]
    {
      if |elements| > 0 {
        elements := elements[1..];
      }
    }

    /** `onDataSplice(start, count, ...values)`; `count` is `None` when the call had one argument. */
    method OnDataSplice(start: int, count: Option<int>, inserted: int)
      modifies this`elements, this`created
      ensures count.Some? ==>
        State() == Inserted(ElementList(SpliceSeq(old(elements), start, count.value, []), old(created)), start, inserted)
      ensures count.None? ==> State() == Inserted(old(State()), start, inserted)
    {
      // `splice(start, undefined)` removes nothing
      var removing := if count.Some? then count.value else 0;
      var k := RelativeIndex(start, |elements|);
      assert elements[..k] + elements[k..] == elements;
      assert count.None? ==> SpliceSeq(elements, start, removing, []) == elements[..k] + elements[k..];
      elements := SpliceSeq(elements, start, removing, []);
      InsertElements(start, inserted);
    }

    method OnDataUnshift(count: nat)
      modifies this`elements, this`created
      ensures State() == Inserted(old(State()), 0, count)
    {
      InsertElements(0, count);
    }

    /** The handler lookup of the instrumented mutator: `'onData' + key` called with the same arguments. */
    method OnData(call: ArrayCall)
      requires call.Push? ==> dataset.data != null
      modifies this`elements, this`created
      ensures State() == Reacted(old(State()), DataLength(), call)
    {
      match call
      case Push(vs) => OnDataPush(|vs|);
      case Pop => OnDataPop();
      case Shift => OnDataShift();
      case Splice(start, count, vs) => OnDataSplice(start, Some(count), |vs|);
      case SpliceToEnd(start) =>
        // arguments.length - 2 == -1
        OnDataSplice(start, None, -1);
      case Unshift(vs) => OnDataUnshift(|vs|);
    }

    /**
     * `buildOrUpdateElements`: make sure the dataset has a data array, move the
     * observation to it if it is a different array, and resync.
     */
    method BuildOrUpdateElements()
      requires observed != null ==> observed.Valid()
      requires dataset.data != null ==> dataset.data.Valid()
      modifies this`observed, this`elements, this`created, dataset`data, Present(observed)`stub, Present(dataset.data)`stub
      ensures dataset.data != null && observed == dataset.data && observed.Valid()
      ensures old(dataset.data) != null ==> dataset.data.items == old(dataset.data.items)
      ensures old(dataset.data) != null ==> dataset.data == old(dataset.data)
      ensures old(dataset.data) == null ==> fresh(dataset.data) && dataset.data.items == []
      ensures old(observed) == dataset.data ==> dataset.data.stub == old(dataset.data.stub)
      ensures old(observed) != dataset.data ==>
        dataset.data.stub == Some(old(if dataset.data != null && dataset.data.stub.Some? then dataset.data.stub.value else []) + [this])
      ensures old(observed) != null && old(observed) != dataset.data ==>
        var rest := RemoveFirst(old(observed.Listeners()), this);
        old(observed).stub == if rest == [] then None else Some(rest)
      ensures State() == Resynced(old(State()), |dataset.data.items|)
    {
      if dataset.data == null {
        dataset.data := new DataArray([]);
      }
      var data := dataset.data;
      if observed != data {
        if observed != null {
          // the user replaced the data array instance
          observed.Unlisten(this);
        }
        data.Listen(this);
        observed := data;
      }
      ResyncElements();
    }

    /** `destroy`: stop listening to the observed array. */
    method Destroy()
      requires observed != null ==> observed.Valid()
      modifies Present(observed)`stub
      ensures observed != null ==> observed.items == old(observed.items)
      ensures observed != null ==>
        var rest := RemoveFirst(old(observed.Listeners()), this);
        observed.Valid() && observed.stub == if old(observed.stub) == None then None else if rest == [] then None else Some(rest)
    {
      if observed != null {
        observed.Unlisten(this);
      }
    }
  }

  /**
   * The listener loop of an instrumented mutator: every listener's handler in
   * registration order, so a listener registered `k` times reacts `k` times.
   */
  method NotifyListeners(listeners: seq<DatasetController>, call: ArrayCall)
    requires call.Push? ==> forall l :: l in listeners ==> l.dataset.data != null
    modifies (set l | l in listeners)`elements, (set l | l in listeners)`created
    ensures forall l :: l in listeners ==>
      l.State() == ReactedTimes(old(l.State()), l.DataLength(), call, multiset(listeners)[l])
  {
    var i := 0;
    while i < |listeners|
      invariant 0 <= i <= |listeners|
      invariant NotifiedUpTo(listeners, i, call, old(StatesOf(listeners)))
    {
      NotifyNext(listeners, i, call, old(StatesOf(listeners)));
      i := i + 1;
    }
    assert listeners[..i] == listeners;
    forall l | l in listeners
      ensures Occurrences(listeners, l) == multiset(listeners)[l]
    {
      OccurrencesCount(listeners, l);
    }
  }

  /** The element lists of the given controllers, keyed by controller. */
  ghost function StatesOf(listeners: seq<DatasetController>): map<DatasetController, ElementList>
    reads set l | l in listeners
  {
    map l | l in listeners :: l.State()
  }

  /**
   * The loop invariant of NotifyListeners: each listener has run its handler
   * once per occurrence among the first `i` entries, starting from `before`.
   */
  ghost predicate NotifiedUpTo(listeners: seq<DatasetController>, i: nat, call: ArrayCall, before: map<DatasetController, ElementList>)
    requires i <= |listeners|
    reads set l | l in listeners, set l | l in listeners :: l.dataset, set l | l in listeners && l.dataset.data != null :: l.dataset.data
  {
    forall l {:trigger l.State()} :: l in listeners ==>
      l in before && l.State() == ReactedTimes(before[l], l.DataLength(), call, Occurrences(listeners[..i], l))
  }

  /** One iteration of the listener loop: the handler of the `i`th listener. */
  method NotifyNext(listeners: seq<DatasetController>, i: nat, call: ArrayCall, ghost before: map<DatasetController, ElementList>)
    requires i < |listeners|
    requires call.Push? ==> listeners[i].dataset.data != null
    requires NotifiedUpTo(listeners, i, call, before)
    modifies (listeners[i] as DatasetController)`elements, (listeners[i] as DatasetController)`created
    ensures NotifiedUpTo(listeners, i + 1, call, before)
  {
    var l := listeners[i];
    OccurrencesSnoc(listeners[..i], l);
    assert listeners[..i + 1] == listeners[..i] + [l];
    l.OnData(call);
    forall other | other in listeners
      ensures other in before
      ensures other.State() == ReactedTimes(before[other], other.DataLength(), call, Occurrences(listeners[..i + 1], other))
    {
      var count := Occurrences(listeners[..i], other);
      assert old(other.State()) == ReactedTimes(before[other], old(other.DataLength()), call, count);
      assert other.DataLength() == old(other.DataLength());
      if other == l {
        assert Occurrences(listeners[..i + 1], other) == count + 1;
      } else {
        assert Occurrences(listeners[..i + 1], other) == count;
        assert other.State() == old(other.State());
      }
    }
  }

  /** How many times `x` occurs in `s`. */
  function Occurrences<T(==)>(s: seq<T>, x: T): nat
  {
    if s == [] then 0 else Occurrences(s[..|s| - 1], x) + (if s[|s| - 1] == x then 1 else 0)
  }

  /** Counting over one more element. */
  lemma OccurrencesSnoc<T>(s: seq<T>, y: T)
    ensures forall x :: Occurrences(s + [y], x) == Occurrences(s, x) + (if y == x then 1 else 0)
  {
    assert (s + [y])[..|s|] == s;
  }

  /** The count agrees with the multiset of the sequence. */
  lemma {:induction false} OccurrencesCount<T>(s: seq<T>, x: T)
    ensures Occurrences(s, x) == multiset(s)[x]
  {
    if s != [] {
      OccurrencesCount(s[..|s| - 1], x);
      assert s == s[..|s| - 1] + [s[|s| - 1]];
    }
  }
}
