/** The editor-side viewer (plugin/telemetry-viewer.js): the parser mode, the
    connection and database bookkeeping, the field catalog and its extractors,
    the two-phase document fetch with its column-to-row projection, and the
    point-cloud payload raised in the engine viewport.

    The viewer's instance fields are the fields of `Viewer`; the widgets
    (text boxes, spinners, check boxes, drop-downs) write those fields
    directly. Every answer of the native extension is a parameter of the
    method that asks for it, and every call into the extension and every event
    raised in the viewport is appended to a log. A handler that throws ends
    with `Threw(name)`, keeping the changes it made before the throw. */
module TelemetryViewer {
  import opened Common
  import opened Values

  const NO_PARSER: int := 0
  const VECTOR3: int := 1
  const POSITION: int := 2
  const POINTCLOUD: int := 1

  const PREFIX: string := "mongodb://"
  const DEFAULT_IP: string := "localhost"
  const DEFAULT_PORT: string := "27017"
  const DEFAULT_DB: string := ""

  /** How a handler ends: normally, or by throwing the named JavaScript error. */
  datatype Completion = Normal | Threw(error: string)

  /** A call into `nativeExtension`, by its registered name. */
  datatype NativeCall = NativeCall(name: string, args: seq<Value>)

  /** An event raised in the engine viewport. */
  datatype Raise = Raise(event: string, args: seq<Value>)

  /** An item of the field catalog, the "Fields to include" list. */
  datatype FieldItem = FieldItem(isIncluded: bool, isSorted: bool, field: Value)

  // ---- parser mode ----

  /** The mode `setMode(option)` leaves selected. */
  function ModeAfter(option: int): int
  {
    if option == POSITION then VECTOR3
    else if option == VECTOR3 then POSITION
    else NO_PARSER
  }

  /** The two parsers are swapped: choosing one selects the other, choosing
      twice comes back, and only NO_PARSER selects itself. */
  lemma ModeAfterSwaps(option: int)
    ensures option == VECTOR3 || option == POSITION ==> ModeAfter(ModeAfter(option)) == option
    ensures ModeAfter(option) == option <==> option == NO_PARSER
    ensures ModeAfter(option) == POSITION <==> option == VECTOR3
  {
  }

  // ---- the field catalog ----

  function IncludedFlags(catalog: seq<FieldItem>): (flags: seq<bool>)
    ensures |flags| == |catalog|
  {
    seq(|catalog|, i requires 0 <= i < |catalog| => catalog[i].isIncluded)
  }

  /** What `getIsIncludedFields` collects: the field of each included item. */
  function IncludedFields(catalog: seq<FieldItem>): seq<Value>
  {
    if |catalog| == 0 then []
    else IncludedFields(catalog[..|catalog| - 1])
         + (if catalog[|catalog| - 1].isIncluded then [catalog[|catalog| - 1].field] else [])
  }

  /** What `getSortFields` collects: the sort flag of each included item. */
  function SortFlags(catalog: seq<FieldItem>): seq<bool>
  {
    if |catalog| == 0 then []
    else SortFlags(catalog[..|catalog| - 1])
         + (if catalog[|catalog| - 1].isIncluded then [catalog[|catalog| - 1].isSorted] else [])
  }

  /** Both extractors walk the included items in catalog order: element j of
      each comes from the j-th included item, so the fields and the sort flags
      have the same length and stay aligned. */
  lemma {:induction false} ExtractorsAtTrueIndices(catalog: seq<FieldItem>)
    ensures var idx := TrueIndices(IncludedFlags(catalog));
      && |IncludedFields(catalog)| == |idx| && |SortFlags(catalog)| == |idx|
      && forall j :: 0 <= j < |idx| ==>
           && idx[j] < |catalog|
           && IncludedFields(catalog)[j] == catalog[idx[j]].field
           && SortFlags(catalog)[j] == catalog[idx[j]].isSorted
  {
    if |catalog| > 0 {
      var init := catalog[..|catalog| - 1];
      ExtractorsAtTrueIndices(init);
      assert IncludedFlags(catalog)[..|catalog| - 1] == IncludedFlags(init);
    }
  }

  /** The extractors give nothing exactly when no item is included. */
  lemma NothingIncluded(catalog: seq<FieldItem>)
    ensures |IncludedFields(catalog)| == 0 <==> forall i :: 0 <= i < |catalog| ==> !catalog[i].isIncluded
    ensures |SortFlags(catalog)| == |IncludedFields(catalog)|
  {
    var flags := IncludedFlags(catalog);
    ExtractorsAtTrueIndices(catalog);
    TrueIndicesSpec(flags);
    if |IncludedFields(catalog)| == 0 {
      assert TrueIndices(flags) == [];
      assert forall i :: 0 <= i < |catalog| ==> flags[i] == catalog[i].isIncluded;
    } else {
      var i := TrueIndices(flags)[0];
      assert catalog[i].isIncluded;
    }
  }

  /** The catalog `selectCollectionModel` builds: one item per key, neither
      included nor sorted. */
  function FreshCatalog(names: seq<Value>): (catalog: seq<FieldItem>)
    ensures |catalog| == |names|
  {
    seq(|names|, i requires 0 <= i < |names| => FieldItem(false, false, names[i]))
  }

  /** A freshly selected collection has nothing to fetch until the user ticks
      a field. */
  lemma FreshCatalogSelectsNothing(names: seq<Value>)
    ensures IncludedFields(FreshCatalog(names)) == []
    ensures SortFlags(FreshCatalog(names)) == []
  {
    NothingIncluded(FreshCatalog(names));
  }

  // ---- reading the document rows ----

  /** The property name a key converts to; None for keys (negative or
      fractional numbers, arrays, objects) whose text the model does not
      compute. */
  function PropertyName(key: Value): Option<string>
  {
    match key
    case Str(s) => Some(s)
    case Undefined => Some("undefined")
    case Nil => Some("null")
    case Bool(b) => Some(if b then "true" else "false")
    case Number(n) => if n.Floor as real == n && n.Floor >= 0 then Some(DecimalString(n.Floor)) else None
    case _ => None
  }

  /** `item[key]` on a row. */
  function Lookup(row: Value, key: Value): Value
  {
    match PropertyName(key)
    case None => Undefined
    case Some(name) => Get(row, name)
  }

  /** A row `getSelectedDataFields(key)` takes a value from. */
  predicate Keeps(row: Value, key: Value)
  {
    Truthy(Get(row, "isIncluded")) && !IsNullish(Lookup(row, key))
  }

  function KeepFlags(rows: seq<Value>, key: Value): (flags: seq<bool>)
    ensures |flags| == |rows|
  {
    seq(|rows|, i requires 0 <= i < |rows| => Keeps(rows[i], key))
  }

  /** What `getSelectedDataFields(key)` collects: `item[key]` of every
      included row where it is neither null nor undefined. */
  function SelectedValues(rows: seq<Value>, key: Value): (values: seq<Value>)
    ensures |values| <= |rows|
    ensures forall j :: 0 <= j < |values| ==> !IsNullish(values[j])
  {
    if |rows| == 0 then []
    else SelectedValues(rows[..|rows| - 1], key)
         + (if Keeps(rows[|rows| - 1], key) then [Lookup(rows[|rows| - 1], key)] else [])
  }

  /** The values are taken from the kept rows, in row order, one per row. */
  lemma {:induction false} SelectedValuesAtTrueIndices(rows: seq<Value>, key: Value)
    ensures var idx := TrueIndices(KeepFlags(rows, key));
      && |SelectedValues(rows, key)| == |idx|
      && forall j :: 0 <= j < |idx| ==>
           idx[j] < |rows| && SelectedValues(rows, key)[j] == Lookup(rows[idx[j]], key)
  {
    if |rows| > 0 {
      var init := rows[..|rows| - 1];
      var last := rows[|rows| - 1];
      SelectedValuesAtTrueIndices(init, key);
      var flags := KeepFlags(rows, key);
      assert flags[..|rows| - 1] == KeepFlags(init, key);
      var idx0, vals0 := TrueIndices(KeepFlags(init, key)), SelectedValues(init, key);
      var tail := if Keeps(last, key) then [Lookup(last, key)] else [];
      assert TrueIndices(flags) == idx0 + (if flags[|rows| - 1] then [|rows| - 1] else []);
      assert SelectedValues(rows, key) == vals0 + tail;
      forall j | 0 <= j < |idx0|
        ensures idx0[j] < |rows| && (vals0 + tail)[j] == Lookup(rows[idx0[j]], key)
      {
        assert rows[idx0[j]] == init[idx0[j]];
      }
    }
  }

  // ---- projecting columns to rows ----

  /** `obj[key] = v` on an object's entries: an existing property keeps its
      place and takes the new value, a new one is added last. */
  function Put(entries: seq<(string, Value)>, key: string, v: Value): seq<(string, Value)>
    decreases |entries|
  {
    if |entries| == 0 then [(key, v)]
    else if entries[0].0 == key then [(key, v)] + entries[1..]
    else [entries[0]] + Put(entries[1..], key, v)
  }

  /** After `obj[key] = v`, reading key gives v and every other property
      reads as before. */
  lemma {:induction false} PutReads(entries: seq<(string, Value)>, key: string, v: Value)
    ensures Get(Object(Put(entries, key, v)), key) == v
    ensures forall other :: other != key ==> Get(Object(Put(entries, key, v)), other) == Get(Object(entries), other)
    decreases |entries|
  {
    if |entries| > 0 {
      var r := Put(entries, key, v);
      if entries[0].0 == key {
        assert r[1..] == entries[1..];
      } else {
        PutReads(entries[1..], key, v);
        assert r[1..] == Put(entries[1..], key, v);
      }
    }
  }

  /** A new row before its cells: `{ id: i, isIncluded: false }`. */
  function RowStart(i: nat): seq<(string, Value)>
  {
    [("id", Number(i as real)), ("isIncluded", Bool(false))]
  }

  /** `column[i]`: undefined past the column's end. */
  function CellAt(col: seq<Value>, i: nat): Value
  {
    if i < |col| then col[i] else Undefined
  }

  /** The row after the cells of the first k keys are assigned. */
  function FillRow(start: seq<(string, Value)>, keys: seq<string>, cols: seq<seq<Value>>, i: nat, k: nat): seq<(string, Value)>
    requires k <= |keys| == |cols|
  {
    if k == 0 then start
    else Put(FillRow(start, keys, cols, i, k - 1), keys[k - 1], CellAt(cols[k - 1], i))
  }

  /** Row i of the documents list. */
  function ProjectRow(keys: seq<string>, cols: seq<seq<Value>>, i: nat): Value
    requires |keys| == |cols|
  {
    Object(FillRow(RowStart(i), keys, cols, i, |keys|))
  }

  predicate DistinctKeys(keys: seq<string>)
  {
    forall a, b :: 0 <= a < b < |keys| ==> keys[a] != keys[b]
  }

  /** After k assignments with distinct keys, the m-th key (m < k) reads as
      its cell. */
  lemma {:induction false} FillRowCell(start: seq<(string, Value)>, keys: seq<string>, cols: seq<seq<Value>>,
                                       i: nat, k: nat, m: nat)
    requires m < k <= |keys| == |cols|
    requires DistinctKeys(keys)
    ensures Get(Object(FillRow(start, keys, cols, i, k)), keys[m]) == CellAt(cols[m], i)
  {
    var prev := FillRow(start, keys, cols, i, k - 1);
    assert FillRow(start, keys, cols, i, k) == Put(prev, keys[k - 1], CellAt(cols[k - 1], i));
    PutReads(prev, keys[k - 1], CellAt(cols[k - 1], i));
    if m < k - 1 {
      FillRowCell(start, keys, cols, i, k - 1, m);
      assert keys[m] != keys[k - 1];
    }
  }

  /** Properties none of the first k keys names keep their value from the
      start. */
  lemma {:induction false} FillRowKeeps(start: seq<(string, Value)>, keys: seq<string>, cols: seq<seq<Value>>, i: nat, k: nat)
    requires k <= |keys| == |cols|
    ensures forall p :: p !in keys[..k] ==> Get(Object(FillRow(start, keys, cols, i, k)), p) == Get(Object(start), p)
  {
    if k > 0 {
      var prev := FillRow(start, keys, cols, i, k - 1);
      FillRowKeeps(start, keys, cols, i, k - 1);
      PutReads(prev, keys[k - 1], CellAt(cols[k - 1], i));
      assert keys[..k] == keys[..k - 1] + [keys[k - 1]];
    }
  }

  /** With distinct keys, row i holds `values[k][i]` under `keys[k]` for every
      key, undefined once i is past that column's end; `id` is i and
      `isIncluded` false unless a key overwrites them. */
  lemma ProjectRowCells(keys: seq<string>, cols: seq<seq<Value>>, i: nat)
    requires |keys| == |cols| && DistinctKeys(keys)
    ensures forall k :: 0 <= k < |keys| ==>
              Get(ProjectRow(keys, cols, i), keys[k]) == (if i < |cols[k]| then cols[k][i] else Undefined)
    ensures "id" !in keys ==> Get(ProjectRow(keys, cols, i), "id") == Number(i as real)
    ensures "isIncluded" !in keys ==> Get(ProjectRow(keys, cols, i), "isIncluded") == Bool(false)
  {
    forall k | 0 <= k < |keys|
      ensures Get(ProjectRow(keys, cols, i), keys[k]) == CellAt(cols[k], i)
    {
      FillRowCell(RowStart(i), keys, cols, i, |keys|, k);
    }
    FillRowKeeps(RowStart(i), keys, cols, i, |keys|);
    assert keys[..|keys|] == keys;
    var start := RowStart(i);
    assert start[0].0 != "isIncluded" && start[1..] == [("isIncluded", Bool(false))];
    assert Get(Object(start), "isIncluded") == Get(Object(start[1..]), "isIncluded");
  }

  /** The length of the longest column. */
  function MaxLength(cols: seq<seq<Value>>): (n: nat)
    ensures forall k :: 0 <= k < |cols| ==> |cols[k]| <= n
    ensures |cols| > 0 ==> exists k :: 0 <= k < |cols| && |cols[k]| == n
    ensures |cols| == 0 ==> n == 0
  {
    if |cols| == 0 then 0
    else
      var m := MaxLength(cols[..|cols| - 1]);
      var last := |cols[|cols| - 1]|;
      if m < last then last else m
  }

  /** A reply entry that holds a column. */
  predicate AllColumns(entries: seq<(string, Value)>)
  {
    forall k :: 0 <= k < |entries| ==> entries[k].1.Array?
  }

  function Keys(entries: seq<(string, Value)>): (keys: seq<string>)
    ensures |keys| == |entries|
  {
    seq(|entries|, k requires 0 <= k < |entries| => entries[k].0)
  }

  function Columns(entries: seq<(string, Value)>): (cols: seq<seq<Value>>)
    requires AllColumns(entries)
    ensures |cols| == |entries|
  {
    seq(|entries|, k requires 0 <= k < |entries| => entries[k].1.items)
  }

  /** The rows `fetchDocuments` lists for a columnar reply: as many as the
      longest column. */
  function ProjectedRows(entries: seq<(string, Value)>): (rows: seq<Value>)
    requires AllColumns(entries)
  {
    var cols := Columns(entries);
    seq(MaxLength(cols), i requires 0 <= i < MaxLength(cols) => ProjectRow(Keys(entries), cols, i))
  }

  /** The replies the extension's `fetchDocuments` can give: nothing, or an
      object (so with distinct keys) whose values are arrays or nil. */
  predicate DocumentsReply(reply: Value)
  {
    || IsNullish(reply)
    || (&& reply.Object?
        && DistinctKeys(Keys(reply.entries))
        && forall k :: 0 <= k < |reply.entries| ==>
             reply.entries[k].1.Array? || IsNullish(reply.entries[k].1))
  }

  /** The running maximum of `fetchDocuments`, which stops with a TypeError at
      the first value that has no length. */
  method ColumnsMaxLength(entries: seq<(string, Value)>) returns (complete: bool, numItems: nat)
    requires forall k :: 0 <= k < |entries| ==> entries[k].1.Array? || IsNullish(entries[k].1)
    ensures complete <==> AllColumns(entries)
    ensures complete ==> numItems == MaxLength(Columns(entries))
  {
    numItems := 0;
    var k := 0;
    while k < |entries|
      invariant 0 <= k <= |entries|
      invariant AllColumns(entries[..k])
      invariant numItems == MaxLength(Columns(entries[..k]))
    {
      var value := entries[k].1;
      if !value.Array? {
        return false, numItems;
      }
      assert Columns(entries[..k + 1])[..k] == Columns(entries[..k]);
      if numItems < |value.items| {
        numItems := |value.items|;
      }
      k := k + 1;
    }
    assert entries[..k] == entries;
    complete := true;
  }

  /** The nested loops of `fetchDocuments` that build the rows. */
  method ProjectRows(keys: seq<string>, cols: seq<seq<Value>>, numItems: nat) returns (items: seq<Value>)
    requires |keys| == |cols|
    ensures items == seq(numItems, i requires 0 <= i < numItems => ProjectRow(keys, cols, i))
  {
    items := [];
    var i := 0;
    while i < numItems
      invariant 0 <= i <= numItems
      invariant |items| == i
      invariant forall j :: 0 <= j < i ==> items[j] == ProjectRow(keys, cols, j)
    {
      var item := BuildRow(keys, cols, i);
      items := items + [Object(item)];
      i := i + 1;
    }
  }

  /** The inner loop: the cells of row i assigned key by key. */
  method BuildRow(keys: seq<string>, cols: seq<seq<Value>>, i: nat) returns (item: seq<(string, Value)>)
    requires |keys| == |cols|
    ensures Object(item) == ProjectRow(keys, cols, i)
  {
    var start := RowStart(i);
    item := start;
    var k := 0;
    while k < |keys|
      invariant 0 <= k <= |keys|
      invariant item == FillRow(start, keys, cols, i, k)
    {
      var cell := CellAt(cols[k], i);
      item := Put(item, keys[k], cell);
      k := k + 1;
    }
  }

  /** The element-by-element copy of the session list. */
  method CopyItems(items: seq<Value>) returns (copy: seq<Value>)
    ensures copy == items
  {
    copy := [];
    var i := 0;
    while i < |items|
      invariant 0 <= i <= |items|
      invariant copy == items[..i]
    {
      copy := copy + [items[i]];
      i := i + 1;
    }
  }

  // ---- the fetch ----

  /** `fetchDocuments` passes its checks: a collection, and at least one field. */
  predicate Validated(collection: Value, fields: Value)
    requires Get(fields, "fields").Array?
  {
    !IsNullish(collection) && |Get(fields, "fields").items| > 0
  }

  /** Under POSITION the session pre-fetch gets through: there is a level key
      to call with, and the answer is an array to copy. */
  predicate Dispatched(mode: int, levelKey: Option<string>, sessionsReply: Value)
  {
    mode == POSITION ==> levelKey.Some? && sessionsReply.Array?
  }

  /** The calls `fetchDocuments` makes into the extension, in order. */
  function FetchCalls(mode: int, levelKey: Option<string>, collection: Value, limit: Value, skip: Value,
                      fields: Value, sortBy: Value, sessionsReply: Value): seq<NativeCall>
    requires Get(fields, "fields").Array?
  {
    if !Validated(collection, fields) then []
    else if mode != POSITION then [NativeCall("fetchDocuments", [collection, skip, limit, fields, sortBy])]
    else if levelKey.None? then []
    else [NativeCall("sessionsIds", [Str(levelKey.value)])]
         + if sessionsReply.Array? then
             [NativeCall("fetchDocuments", [collection, skip, limit, fields, sortBy,
                                            Object([("sessions_ids", Array(sessionsReply.items))])])]
           else []
  }

  /** The documents are fetched with five arguments outside POSITION, and
      with the session list as a sixth after a first call for the sessions
      under POSITION; nothing is called when the checks fail. */
  lemma FetchDispatch(mode: int, levelKey: Option<string>, collection: Value, limit: Value, skip: Value,
                      fields: Value, sortBy: Value, sessionsReply: Value)
    requires Get(fields, "fields").Array?
    ensures var calls := FetchCalls(mode, levelKey, collection, limit, skip, fields, sortBy, sessionsReply);
      && (!Validated(collection, fields) ==> calls == [])
      && (Validated(collection, fields) && mode != POSITION ==>
            |calls| == 1 && calls[0].name == "fetchDocuments" && |calls[0].args| == 5)
      && (Validated(collection, fields) && mode == POSITION && Dispatched(mode, levelKey, sessionsReply) ==>
            && |calls| == 2 && calls[0].name == "sessionsIds" && calls[1].name == "fetchDocuments"
            && |calls[1].args| == 6 && Get(calls[1].args[5], "sessions_ids") == sessionsReply)
      && (|calls| > 0 && calls[|calls| - 1].name == "fetchDocuments" <==>
            Validated(collection, fields) && Dispatched(mode, levelKey, sessionsReply))
      && forall c :: 0 <= c < |calls| && calls[c].name == "fetchDocuments" ==>
            calls[c].args[..5] == [collection, skip, limit, fields, sortBy]
  {
  }

  /** The arguments the fetch button builds from the viewer's state. */
  function LimitArg(n: nat): Value { Object([("limit", Number(n as real))]) }
  function SkipArg(n: nat): Value { Object([("skip", Number(n as real))]) }
  function FieldsArg(catalog: seq<FieldItem>): Value { Object([("fields", Array(IncludedFields(catalog)))]) }

  function BoolValues(flags: seq<bool>): (values: seq<Value>)
    ensures |values| == |flags|
  {
    seq(|flags|, i requires 0 <= i < |flags| => Bool(flags[i]))
  }

  function SortArg(catalog: seq<FieldItem>): Value { Object([("sort", Array(BoolValues(SortFlags(catalog))))]) }

  // ---- the visualization ----

  /** The arguments of `visualize_point_cloud`: the mode and the positions,
      then the scalars and the colour range when a scale is used. */
  function PointCloudArgs(mode: int, positions: seq<Value>, scalars: Option<seq<Value>>,
                          min: real, desired: real, max: real): seq<Value>
  {
    [Number(mode as real), Array(positions)]
    + if scalars.Some? then [Array(scalars.value), Number(min), Number(desired), Number(max)] else []
  }

  /** The point-cloud options: the field list the choices index, the chosen
      position and scalar fields, and the colour scale. */
  class PointCloud {
    var activeFields: Value
    var positionChoice: int
    var scalarChoice: int
    var useScalar: bool
    var min: real
    var desired: real
    var max: real

    constructor()
      ensures activeFields == Nil && positionChoice == 1 && scalarChoice == 1
      ensures !useScalar && min == 0.0 && desired == 0.0 && max == 0.0
    {
      activeFields := Nil;
      positionChoice := 1;
      scalarChoice := 1;
      useScalar := false;
      min, desired, max := 0.0, 0.0, 0.0;
    }

    /** setFields: the choices now index the `fields` entry of the argument. */
    method SetFields(fields: Value)
      requires !IsNullish(fields)
      modifies this`activeFields
      ensures activeFields == Get(fields, "fields")
    {
      activeFields := Get(fields, "fields");
    }

    /** getPositionKey: the field at the chosen position; undefined when the
        choice is outside the list. */
    function PositionKey(): (key: Value)
      reads this
      requires !IsNullish(activeFields)
      ensures activeFields.Array? && 0 <= positionChoice < |activeFields.items| ==>
                key == activeFields.items[positionChoice]
      ensures activeFields.Array? && !(0 <= positionChoice < |activeFields.items|) ==> key.Undefined?
    {
      Index(activeFields, Number(positionChoice as real))
    }

    /** getScalarKey: the field at the chosen scalar; undefined when the choice
        is outside the list. */
    function ScalarKey(): (key: Value)
      reads this
      requires !IsNullish(activeFields)
      ensures activeFields.Array? && 0 <= scalarChoice < |activeFields.items| ==>
                key == activeFields.items[scalarChoice]
      ensures activeFields.Array? && !(0 <= scalarChoice < |activeFields.items|) ==> key.Undefined?
    {
      Index(activeFields, Number(scalarChoice as real))
    }

    /** The colour-scale check box: a value that is not nil sets the flag to
        its truthiness; the flag is answered either way. */
    method UseScalarModel(value: Value) returns (r: bool)
      modifies this`useScalar
      ensures IsNullish(value) ==> useScalar == old(useScalar)
      ensures !IsNullish(value) ==> useScalar == Truthy(value)
      ensures r == useScalar
    {
      if !IsNullish(value) {
        useScalar := Truthy(value);
      }
      r := useScalar;
    }
  }

  class Viewer {
    var selectedMode: int
    /** The level-key text box; None until the VECTOR3 option creates it. */
    var levelKey: Option<string>
    /** Whether the level-key panel is shown. */
    var levelKeyPanel: bool
    var ip: string
    var port: string
    var dataBase: string
    var databaseAdress: Option<string>
    var collections: Value
    var selectedCollection: Value
    var fetchEnabled: bool
    /** The field catalog. */
    var catalog: seq<FieldItem>
    var fetchSkip: nat
    var fetchLimit: nat
    /** The rows of the documents list; None until a fetch completes. */
    var rows: Option<seq<Value>>
    /** The columns of the documents list, by property. */
    var tableColumns: seq<string>
    var visualizeEnabled: bool
    /** The chosen visualization. */
    var visualization: int
    const pointCloud: PointCloud
    var calls: seq<NativeCall>
    var raised: seq<Raise>

    constructor()
      ensures selectedMode == VECTOR3 && levelKey == None && !levelKeyPanel
      ensures ip == DEFAULT_IP && port == DEFAULT_PORT && dataBase == DEFAULT_DB && databaseAdress == None
      ensures collections == Nil && selectedCollection == Nil && !fetchEnabled && catalog == []
      ensures fetchSkip == 0 && fetchLimit == 1000
      ensures rows == None && tableColumns == [] && !visualizeEnabled && visualization == POINTCLOUD
      ensures fresh(pointCloud) && pointCloud.activeFields == Nil && !pointCloud.useScalar
      ensures calls == [] && raised == []
    {
      selectedMode := VECTOR3;
      levelKey := None;
      levelKeyPanel := false;
      ip, port, dataBase := DEFAULT_IP, DEFAULT_PORT, DEFAULT_DB;
      databaseAdress := None;
      collections, selectedCollection := Nil, Nil;
      fetchEnabled := false;
      catalog := [];
      fetchSkip, fetchLimit := 0, 1000;
      rows, tableColumns := None, [];
      visualizeEnabled := false;
      visualization := POINTCLOUD;
      pointCloud := new PointCloud();
      calls, raised := [], [];
    }

    /** setMode: the selected parser is the other one of the two (see
        ModeAfter); the VECTOR3 option opens the level-key panel with a fresh
        "level_key", every other option closes it. */
    method SetMode(option: int)
      modifies this`selectedMode, this`levelKey, this`levelKeyPanel
      ensures selectedMode == ModeAfter(option)
      ensures levelKeyPanel <==> option == VECTOR3
      ensures levelKey == if option == VECTOR3 then Some("level_key") else old(levelKey)
      ensures selectedMode == POSITION ==> levelKey == Some("level_key")
    {
      if option == POSITION {
        selectedMode := VECTOR3;
        levelKeyPanel := false;
      } else if option == VECTOR3 {
        selectedMode := POSITION;
        levelKey := Some("level_key");
        levelKeyPanel := true;
      } else {
        selectedMode := NO_PARSER;
        levelKeyPanel := false;
      }
    }

    /** The visualization choice: it becomes the visualization and also
        overwrites the parser mode, so choosing the point cloud selects
        VECTOR3. */
    method ChooseVisualization(chosen: int) returns (r: int)
      modifies this`selectedMode, this`visualization
      ensures r == chosen && selectedMode == chosen && visualization == chosen
      ensures chosen == POINTCLOUD ==> selectedMode == VECTOR3
    {
      visualization := chosen;
      selectedMode := chosen;
      r := chosen;
    }

    /** connect: with an address and a port, ask the extension to connect to
        `mongodb://ip:port`; on a truthy answer tell the viewport and remember
        the address, otherwise change nothing. */
    method Connect(reply: Value)
      modifies this`calls, this`raised, this`databaseAdress
      ensures var address := PREFIX + ip + ":" + port;
        && calls == old(calls) + (if ip != "" && port != "" then [NativeCall("connectToDatabase", [Str(address)])] else [])
        && (ip != "" && port != "" && Truthy(reply) ==>
              raised == old(raised) + [Raise("connect_to_database", [Str(address)])] && databaseAdress == Some(address))
        && (!(ip != "" && port != "" && Truthy(reply)) ==>
              raised == old(raised) && databaseAdress == old(databaseAdress))
    {
      var address := PREFIX + ip + ":" + port;
      var success := Undefined;
      if ip != "" && port != "" {
        calls := calls + [NativeCall("connectToDatabase", [Str(address)])];
        success := reply;
      }
      if Truthy(success) {
        raised := raised + [Raise("connect_to_database", [Str(address)])];
        databaseAdress := Some(address);
      }
    }

    /** selectDatabase: ask for the named database (when a name is entered);
        unless the answer is loosely equal to false, take it as the
        collection list, enable fetching and tell the viewport. Without a name
        the answer is undefined, which is not equal to false. */
    method SelectDatabase(reply: Value)
      modifies this`calls, this`raised, this`collections, this`fetchEnabled
      ensures var names := if dataBase != "" then reply else Undefined;
        && calls == old(calls) + (if dataBase != "" then [NativeCall("selectDatabase", [Str(dataBase)])] else [])
        && (LooseEqualsFalse(names) ==>
              raised == old(raised) && collections == old(collections) && fetchEnabled == old(fetchEnabled))
        && (!LooseEqualsFalse(names) ==>
              raised == old(raised) + [Raise("select_database", [Str(dataBase)])]
              && collections == names && fetchEnabled)
    {
      var collectionNames := Undefined;
      if dataBase != "" {
        calls := calls + [NativeCall("selectDatabase", [Str(dataBase)])];
        collectionNames := reply;
      }
      if !LooseEqualsFalse(collectionNames) {
        collections := collectionNames;
        fetchEnabled := true;
        raised := raised + [Raise("select_database", [Str(dataBase)])];
      }
    }

    /** The state effect of selectCollectionModel: for a real choice, select
        the collection, ask for its field keys and reset the catalog to one
        unticked item per key. The handler then always throws: a
        ReferenceError on an undeclared name once the catalog is built, or a
        TypeError when the collection list or the key list is not an array. */
    method SelectCollection(item: Value, keysReply: Value) returns (c: Completion)
      modifies this`selectedCollection, this`calls, this`catalog
      ensures IsNullish(item) || item == Str("null") || item == Str("undefined") ==>
        c == Normal && selectedCollection == old(selectedCollection) && calls == old(calls) && catalog == old(catalog)
      ensures !(IsNullish(item) || item == Str("null") || item == Str("undefined")) && IsNullish(collections) ==>
        c == Threw("TypeError") && selectedCollection == old(selectedCollection) && calls == old(calls) && catalog == old(catalog)
      ensures !(IsNullish(item) || item == Str("null") || item == Str("undefined")) && !IsNullish(collections) ==>
        && selectedCollection == Index(collections, item)
        && calls == old(calls) + [NativeCall("fetchFieldKeys", [selectedCollection])]
        && (keysReply.Array? ==> catalog == FreshCatalog(keysReply.items) && c == Threw("ReferenceError"))
        && (!keysReply.Array? ==> catalog == [] && c == Threw("TypeError"))
    {
      if IsNullish(item) || item == Str("null") || item == Str("undefined") {
        return Normal;
      }
      if IsNullish(collections) {
        return Threw("TypeError");
      }
      selectedCollection := Index(collections, item);
      calls := calls + [NativeCall("fetchFieldKeys", [selectedCollection])];
      catalog := [];
      if !keysReply.Array? {
        return Threw("TypeError");
      }
      var names := keysReply.items;
      var items := [];
      var i := 0;
      while i < |names|
        invariant 0 <= i <= |names|
        invariant items == FreshCatalog(names[..i])
      {
        items := items + [FieldItem(false, false, names[i])];
        i := i + 1;
      }
      assert names[..i] == names;
      catalog := items;
      c := Threw("ReferenceError");
    }

    /** getIsIncludedFields. */
    method GetIsIncludedFields() returns (selectedFields: seq<Value>)
      ensures selectedFields == IncludedFields(catalog)
    {
      selectedFields := [];
      var i := 0;
      while i < |catalog|
        invariant 0 <= i <= |catalog|
        invariant selectedFields == IncludedFields(catalog[..i])
      {
        assert catalog[..i + 1][..i] == catalog[..i];
        if catalog[i].isIncluded {
          selectedFields := selectedFields + [catalog[i].field];
        }
        i := i + 1;
      }
      assert catalog[..i] == catalog;
    }

    /** getSortFields. */
    method GetSortFields() returns (sortFields: seq<bool>)
      ensures sortFields == SortFlags(catalog)
    {
      sortFields := [];
      var i := 0;
      while i < |catalog|
        invariant 0 <= i <= |catalog|
        invariant sortFields == SortFlags(catalog[..i])
      {
        assert catalog[..i + 1][..i] == catalog[..i];
        if catalog[i].isIncluded {
          sortFields := sortFields + [catalog[i].isSorted];
        }
        i := i + 1;
      }
      assert catalog[..i] == catalog;
    }

    /** getSelectedDataFields (the documents list exists once a fetch has
        completed). */
    method GetSelectedDataFields(key: Value) returns (values: seq<Value>)
      requires rows.Some?
      ensures values == SelectedValues(rows.value, key)
    {
      var items := rows.value;
      values := [];
      var i := 0;
      while i < |items|
        invariant 0 <= i <= |items|
        invariant values == SelectedValues(items[..i], key)
      {
        assert items[..i + 1][..i] == items[..i];
        var item := items[i];
        if Truthy(Get(item, "isIncluded")) {
          if !IsNullish(Lookup(item, key)) {
            values := values + [Lookup(item, key)];
          }
        }
        i := i + 1;
      }
      assert items[..i] == items;
    }

    /** fetchSessions: the session ids of the level key's level; calling the
        level key before the VECTOR3 option created it is a TypeError. */
    method FetchSessions(reply: Value) returns (c: Completion, ids: Value)
      modifies this`calls
      ensures levelKey.None? ==> c == Threw("TypeError") && calls == old(calls)
      ensures levelKey.Some? ==>
        c == Normal && ids == reply && calls == old(calls) + [NativeCall("sessionsIds", [Str(levelKey.value)])]
    {
      if levelKey.None? {
        return Threw("TypeError"), Undefined;
      }
      calls := calls + [NativeCall("sessionsIds", [Str(levelKey.value)])];
      c, ids := Normal, reply;
    }

    /** fetchDocuments: check the arguments, fetch (after the sessions under
        POSITION), then list one row per index up to the longest column,
        hand the fields to the visualization and enable it. */
    method FetchDocuments(collection: Value, limit: Value, skip: Value, fields: Value, sortBy: Value,
                          sessionsReply: Value, documentsReply: Value) returns (c: Completion)
      requires Get(fields, "fields").Array?
      requires DocumentsReply(documentsReply)
      modifies this`calls, this`rows, this`tableColumns, this`visualizeEnabled, pointCloud`activeFields
      ensures calls == old(calls) + FetchCalls(selectedMode, levelKey, collection, limit, skip, fields, sortBy, sessionsReply)
      ensures !Validated(collection, fields) ==> c == Normal
      ensures Validated(collection, fields) && !Dispatched(selectedMode, levelKey, sessionsReply) ==> c == Threw("TypeError")
      ensures (&& Validated(collection, fields) && Dispatched(selectedMode, levelKey, sessionsReply)
               && !(documentsReply.Object? && AllColumns(documentsReply.entries))) ==> c == Threw("TypeError")
      ensures c != Normal || !Validated(collection, fields) ==>
        && rows == old(rows) && tableColumns == old(tableColumns)
        && visualizeEnabled == old(visualizeEnabled) && pointCloud.activeFields == old(pointCloud.activeFields)
      ensures Validated(collection, fields) && Dispatched(selectedMode, levelKey, sessionsReply)
              && documentsReply.Object? && AllColumns(documentsReply.entries) ==>
        && c == Normal
        && rows == Some(ProjectedRows(documentsReply.entries))
        && tableColumns == ["isIncluded"] + Keys(documentsReply.entries)
        && pointCloud.activeFields == Get(fields, "fields") && visualizeEnabled
    {
      if IsNullish(collection) {
        return Normal;
      }
      if |Get(fields, "fields").items| == 0 {
        return Normal;
      }
      c := DispatchFetch(collection, limit, skip, fields, sortBy, sessionsReply);
      if c.Threw? {
        return;
      }
      c := ListDocuments(fields, documentsReply);
    }

    /** The calls of fetchDocuments once its checks pass: the documents, after
        the sessions under POSITION, whose answer must be an array to copy. */
    method DispatchFetch(collection: Value, limit: Value, skip: Value, fields: Value, sortBy: Value,
                         sessionsReply: Value) returns (c: Completion)
      requires Get(fields, "fields").Array? && Validated(collection, fields)
      modifies this`calls
      ensures calls == old(calls) + FetchCalls(selectedMode, levelKey, collection, limit, skip, fields, sortBy, sessionsReply)
      ensures c == (if Dispatched(selectedMode, levelKey, sessionsReply) then Normal else Threw("TypeError"))
    {
      if selectedMode == POSITION {
        var fetched, tempSessionIDs := FetchSessions(sessionsReply);
        if fetched.Threw? {
          return fetched;
        }
        if !tempSessionIDs.Array? {
          return Threw("TypeError");
        }
        var sessionIDs := CopyItems(tempSessionIDs.items);
        var sessions := Object([("sessions_ids", Array(sessionIDs))]);
        calls := calls + [NativeCall("fetchDocuments", [collection, skip, limit, fields, sortBy, sessions])];
      } else {
        calls := calls + [NativeCall("fetchDocuments", [collection, skip, limit, fields, sortBy])];
      }
      c := Normal;
    }

    /** The listing part of fetchDocuments: the longest column gives the
        number of rows, each row is projected from the columns, and the
        visualization gets the fields. A reply that is not an object, or a
        column without a length, throws before anything changes. */
    method ListDocuments(fields: Value, documentsReply: Value) returns (c: Completion)
      requires !IsNullish(fields) && DocumentsReply(documentsReply)
      modifies this`rows, this`tableColumns, this`visualizeEnabled, pointCloud`activeFields
      ensures !(documentsReply.Object? && AllColumns(documentsReply.entries)) ==>
        && c == Threw("TypeError")
        && rows == old(rows) && tableColumns == old(tableColumns)
        && visualizeEnabled == old(visualizeEnabled) && pointCloud.activeFields == old(pointCloud.activeFields)
      ensures documentsReply.Object? && AllColumns(documentsReply.entries) ==>
        && c == Normal
        && rows == Some(ProjectedRows(documentsReply.entries))
        && tableColumns == ["isIncluded"] + Keys(documentsReply.entries)
        && pointCloud.activeFields == Get(fields, "fields") && visualizeEnabled
    {
      var documents := documentsReply;
      if !documents.Object? {
        return Threw("TypeError");
      }
      var complete, numItems := ColumnsMaxLength(documents.entries);
      if !complete {
        return Threw("TypeError");
      }
      var keys := Keys(documents.entries);
      var items := ProjectRows(keys, Columns(documents.entries), numItems);
      assert items == ProjectedRows(documents.entries);
      rows := Some(items);
      tableColumns := ["isIncluded"] + keys;
      pointCloud.SetFields(fields);
      visualizeEnabled := true;
      c := Normal;
    }

    /** The fetch button: fetch the selected collection with the limit and
        skip spinners, the included fields and their sort flags. */
    method FetchData(sessionsReply: Value, documentsReply: Value) returns (c: Completion)
      requires DocumentsReply(documentsReply)
      modifies this`calls, this`rows, this`tableColumns, this`visualizeEnabled, pointCloud`activeFields
      ensures calls == old(calls) + FetchCalls(selectedMode, levelKey, selectedCollection, LimitArg(fetchLimit),
                                               SkipArg(fetchSkip), FieldsArg(catalog), SortArg(catalog), sessionsReply)
      ensures c != Normal || !Validated(selectedCollection, FieldsArg(catalog)) ==>
        && rows == old(rows) && tableColumns == old(tableColumns)
        && visualizeEnabled == old(visualizeEnabled) && pointCloud.activeFields == old(pointCloud.activeFields)
      ensures Validated(selectedCollection, FieldsArg(catalog)) && Dispatched(selectedMode, levelKey, sessionsReply)
              && documentsReply.Object? && AllColumns(documentsReply.entries) ==>
        && c == Normal
        && rows == Some(ProjectedRows(documentsReply.entries))
        && tableColumns == ["isIncluded"] + Keys(documentsReply.entries)
        && pointCloud.activeFields == Array(IncludedFields(catalog)) && visualizeEnabled
    {
      var selectedFields := GetIsIncludedFields();
      var sortFields := GetSortFields();
      c := FetchDocuments(selectedCollection, LimitArg(fetchLimit), SkipArg(fetchSkip),
                          Object([("fields", Array(selectedFields))]),
                          Object([("sort", Array(BoolValues(sortFields)))]),
                          sessionsReply, documentsReply);
    }

    /** visualize: for the point cloud, raise `visualize_point_cloud` with the
        mode and the position values of the included rows, adding the scalar
        values and the colour range when a scale is used. Before a fetch has
        listed documents and fields it throws. */
    method Visualize() returns (c: Completion)
      modifies this`raised
      ensures visualization != POINTCLOUD ==> c == Normal && raised == old(raised)
      ensures visualization == POINTCLOUD && (IsNullish(pointCloud.activeFields) || rows.None?) ==>
        c == Threw("TypeError") && raised == old(raised)
      ensures visualization == POINTCLOUD && !IsNullish(pointCloud.activeFields) && rows.Some? ==>
        && c == Normal
        && raised == old(raised) + [Raise("visualize_point_cloud",
             PointCloudArgs(selectedMode, SelectedValues(rows.value, pointCloud.PositionKey()),
                            if pointCloud.useScalar then Some(SelectedValues(rows.value, pointCloud.ScalarKey())) else None,
                            pointCloud.min, pointCloud.desired, pointCloud.max))]
    {
      if visualization != POINTCLOUD {
        return Normal;
      }
      if IsNullish(pointCloud.activeFields) || rows.None? {
        return Threw("TypeError");
      }
      var positions := GetSelectedDataFields(pointCloud.PositionKey());
      if pointCloud.useScalar {
        var scalars := GetSelectedDataFields(pointCloud.ScalarKey());
        raised := raised + [Raise("visualize_point_cloud",
          PointCloudArgs(selectedMode, positions, Some(scalars), pointCloud.min, pointCloud.desired, pointCloud.max))];
      } else {
        raised := raised + [Raise("visualize_point_cloud",
          PointCloudArgs(selectedMode, positions, None, pointCloud.min, pointCloud.desired, pointCloud.max))];
      }
      c := Normal;
    }
  }
}
