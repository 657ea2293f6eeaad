/** The request building and result shaping of the editor's native extension
    (editor/editor_plugin.cpp): argument parsing, the sort, projection and
    session documents, BSON-to-ConfigValue conversion into ragged columns, and
    the flattening of field keys. None of these touch the plugin's globals; the
    class in EditorPlugin strings them together. */
module EditorQuery {
  import opened Common
  import opened Values
  import opened Bson

  // ---- ConfigValue conventions ----

  /** `to_string`: the text of a string value, null for any other value. */
  function ToStr(v: Value): Option<string>
  {
    if v.Str? then Some(v.s) else None
  }

  /** `to_bool`: true only for the value `true`. */
  function ToBool(v: Value): bool
  {
    v.Bool? && v.b
  }

  /** A value made with `make(nullptr)` and then `push`ed to: nil until the
      first push makes it an array. */
  function Pushed(items: seq<Value>): (r: Value)
    ensures |items| == 0 ==> r.Nil?
    ensures |items| > 0 ==> r.Array? && r.items == items
  {
    if |items| == 0 then Nil else Array(items)
  }

  // ---- argument parsing (fetch_documents) ----

  /** What the argument loop of `fetch_documents` collects. `limit` and `skip`
      stay None when no argument sets them (the source leaves them
      uninitialised); `sessionsArg` is the position of the `sessions_ids`
      argument. */
  datatype FetchParams = FetchParams(
    limit: Option<real>,
    skip: Option<real>,
    fields: seq<Option<string>>,
    sort: seq<bool>,
    sessionsArg: Option<nat>)

  const NoParams := FetchParams(None, None, [], [], None)

  /** The value of an object argument's first entry. */
  function Payload(arg: Value): Value
    requires arg.Object? && |arg.entries| > 0
  {
    arg.entries[0].1
  }

  /** An argument is taken for `key` when it is an object whose FIRST key is
      `key` and whose value has the type that key needs. */
  predicate Accepted(arg: Value, key: string)
  {
    && arg.Object? && |arg.entries| > 0 && arg.entries[0].0 == key
    && if key == "limit" || key == "skip" then Payload(arg).Number?
       else if key == "fields" || key == "sort" then Payload(arg).Array?
       else key == "sessions_ids"
  }

  function ToStrings(items: seq<Value>): (r: seq<Option<string>>)
    ensures |r| == |items|
  {
    seq(|items|, i requires 0 <= i < |items| => ToStr(items[i]))
  }

  function ToBools(items: seq<Value>): (r: seq<bool>)
    ensures |r| == |items|
  {
    seq(|items|, i requires 0 <= i < |items| => ToBool(items[i]))
  }

  /** One turn of the argument loop, for the argument at position i. */
  function Step(p: FetchParams, arg: Value, i: nat): FetchParams
  {
    if Accepted(arg, "limit") then p.(limit := Some(Payload(arg).n))
    else if Accepted(arg, "skip") then p.(skip := Some(Payload(arg).n))
    else if Accepted(arg, "fields") then p.(fields := ToStrings(Payload(arg).items))
    else if Accepted(arg, "sort") then p.(sort := ToBools(Payload(arg).items))
    else if Accepted(arg, "sessions_ids") then p.(sessionsArg := Some(i))
    else p
  }

  /** The parameters collected from args[1..n]. */
  function Parsed(args: seq<Value>, n: nat): FetchParams
    requires n <= |args|
  {
    if n <= 1 then NoParams else Step(Parsed(args, n - 1), args[n - 1], n - 1)
  }

  /** The argument loop of `fetch_documents` (args[0] is the collection name). */
  method ParseFetchArgs(args: seq<Value>) returns (p: FetchParams)
    requires |args| >= 1
    ensures p == Parsed(args, |args|)
  {
    p := NoParams;
    var i := 1;
    while i < |args|
      invariant 1 <= i <= |args|
      invariant p == Parsed(args, i)
    {
      var arg := args[i];
      if arg.Object? && |arg.entries| > 0 {
        var key, value := arg.entries[0].0, arg.entries[0].1;
        if key == "limit" {
          if value.Number? { p := p.(limit := Some(value.n)); }
        } else if key == "skip" {
          if value.Number? { p := p.(skip := Some(value.n)); }
        } else if key == "fields" {
          if value.Array? { p := p.(fields := ToStrings(value.items)); }
        } else if key == "sort" {
          if value.Array? { p := p.(sort := ToBools(value.items)); }
        } else if key == "sessions_ids" {
          p := p.(sessionsArg := Some(i));
        }
      }
      i := i + 1;
    }
  }

  /** The position of the last argument in args[1..n] taken for key. */
  function LastAccepted(args: seq<Value>, n: nat, key: string): (r: Option<nat>)
    requires n <= |args|
    ensures r.Some? ==> 1 <= r.value < n && Accepted(args[r.value], key)
  {
    if n <= 1 then None
    else if Accepted(args[n - 1], key) then Some(n - 1)
    else LastAccepted(args, n - 1, key)
  }

  /** The argument found is the last one taken for the key; none is found
      exactly when no argument is taken for it. */
  lemma {:induction false} LastAcceptedIsLast(args: seq<Value>, n: nat, key: string)
    requires n <= |args|
    ensures var r := LastAccepted(args, n, key);
      && (r.Some? ==> forall k :: r.value < k < n ==> !Accepted(args[k], key))
      && (r.None? <==> forall k :: 1 <= k < n ==> !Accepted(args[k], key))
  {
    if n > 1 {
      LastAcceptedIsLast(args, n - 1, key);
    }
  }

  /** Each parameter comes from the LAST argument taken for its key (a later
      argument overrides an earlier one), and keeps its initial state when no
      argument is taken for it: arguments with another first key, a value of the
      wrong type, or a non-object are ignored. */
  lemma ParsedIsLastAccepted(args: seq<Value>, n: nat)
    requires n <= |args|
    ensures var p := Parsed(args, n);
      && p.limit == (match LastAccepted(args, n, "limit")
                     case None => None case Some(j) => Some(Payload(args[j]).n))
      && p.skip == (match LastAccepted(args, n, "skip")
                    case None => None case Some(j) => Some(Payload(args[j]).n))
      && p.fields == (match LastAccepted(args, n, "fields")
                      case None => [] case Some(j) => ToStrings(Payload(args[j]).items))
      && p.sort == (match LastAccepted(args, n, "sort")
                    case None => [] case Some(j) => ToBools(Payload(args[j]).items))
      && p.sessionsArg == LastAccepted(args, n, "sessions_ids")
  {
    ParsedSpinners(args, n);
    ParsedLists(args, n);
  }

  /** The limit and the skip come from the last argument taken for each. */
  lemma {:induction false} ParsedSpinners(args: seq<Value>, n: nat)
    requires n <= |args|
    ensures var p := Parsed(args, n);
      && p.limit == (match LastAccepted(args, n, "limit")
                     case None => None case Some(j) => Some(Payload(args[j]).n))
      && p.skip == (match LastAccepted(args, n, "skip")
                    case None => None case Some(j) => Some(Payload(args[j]).n))
  {
    if n > 1 {
      ParsedSpinners(args, n - 1);
      var arg := args[n - 1];
      if Accepted(arg, "limit") {
        assert !Accepted(arg, "skip");
      }
    }
  }

  /** The fields, the sort flags and the position of the session list come
      from the last argument taken for each. */
  lemma {:induction false} ParsedLists(args: seq<Value>, n: nat)
    requires n <= |args|
    ensures var p := Parsed(args, n);
      && p.fields == (match LastAccepted(args, n, "fields")
                      case None => [] case Some(j) => ToStrings(Payload(args[j]).items))
      && p.sort == (match LastAccepted(args, n, "sort")
                    case None => [] case Some(j) => ToBools(Payload(args[j]).items))
      && p.sessionsArg == LastAccepted(args, n, "sessions_ids")
  {
    if n > 1 {
      ParsedLists(args, n - 1);
      var arg := args[n - 1];
      if Accepted(arg, "limit") || Accepted(arg, "skip") {
        assert !Accepted(arg, "fields") && !Accepted(arg, "sort") && !Accepted(arg, "sessions_ids");
      } else if Accepted(arg, "fields") {
        assert !Accepted(arg, "sort") && !Accepted(arg, "sessions_ids");
      } else if Accepted(arg, "sort") {
        assert !Accepted(arg, "sessions_ids");
      }
    }
  }

  // ---- the request documents ----

  /** The sort document: `field: 1` for every field whose sort flag is set, in
      index order (built from the end, as a running document). */
  function SortDoc(fields: seq<string>, flags: seq<bool>): Doc
    requires |flags| <= |fields|
  {
    if |flags| == 0 then []
    else SortDoc(fields, flags[..|flags| - 1])
         + (if flags[|flags| - 1] then [(fields[|flags| - 1], BInt32(1))] else [])
  }

  /** The sort document lists exactly the fields at the true sort flags, each
      with ascending order 1, in index order. */
  lemma {:induction false} SortDocSelectsFlagged(fields: seq<string>, flags: seq<bool>)
    requires |flags| <= |fields|
    ensures var idx := TrueIndices(flags);
      && (forall j :: 0 <= j < |idx| ==> idx[j] < |fields|)
      && |SortDoc(fields, flags)| == |idx|
      && forall j :: 0 <= j < |idx| ==> SortDoc(fields, flags)[j] == (fields[idx[j]], BInt32(1))
  {
    TrueIndicesSpec(flags);
    if |flags| > 0 {
      SortDocSelectsFlagged(fields, flags[..|flags| - 1]);
    }
  }

  /** The loop at editor_plugin.cpp:273-277. */
  method BuildSortDoc(fields: seq<string>, flags: seq<bool>) returns (doc: Doc)
    requires |flags| <= |fields|
    ensures doc == SortDoc(fields, flags)
  {
    doc := [];
    var i := 0;
    while i < |flags|
      invariant 0 <= i <= |flags|
      invariant doc == SortDoc(fields, flags[..i])
    {
      assert flags[..i + 1][..i] == flags[..i];
      if flags[i] {
        doc := doc + [(fields[i], BInt32(1))];
      }
      i := i + 1;
    }
    assert flags[..|flags|] == flags;
  }

  /** The loop at editor_plugin.cpp:281-285. */
  method BuildProjection(fields: seq<string>) returns (doc: Doc)
    ensures doc == Projection(fields)
    ensures |doc| == |fields| + 1 && doc[0] == ("_id", BBool(false))
    ensures forall i :: 0 <= i < |fields| ==> doc[i + 1] == (fields[i], BBool(true))
  {
    doc := [("_id", BBool(false))];
    var i := 0;
    while i < |fields|
      invariant 0 <= i <= |fields|
      invariant doc == Projection(fields[..i])
    {
      doc := doc + [(fields[i], BBool(true))];
      i := i + 1;
    }
    assert fields[..|fields|] == fields;
  }

  /** The `$or` loop at editor_plugin.cpp:254-264, after the `$exists` clause. */
  method BuildSessionFilter(ids: seq<Option<string>>) returns (filter: Doc)
    requires |ids| <= 10000
    ensures filter == SessionFilter(ids)
  {
    var orOperand: Doc := [];
    var i := 0;
    while i < |ids|
      invariant 0 <= i <= |ids|
      invariant orOperand == SessionClauses(ids[..i])
    {
      orOperand := orOperand + [(DecimalString(i), BDocument([("session_id", Utf8OrNull(ids[i]))]))];
      i := i + 1;
    }
    assert ids[..|ids|] == ids;
    filter := [("params.position", BDocument([("$exists", BBool(true))])), ("$or", BArray(orOperand))];
  }

  /** What `fetch_documents` needs of its arguments so that it reads no
      uninitialised variable, no null key and no element past an array: limit
      and skip given and convertible, every field name a string, no more sort
      flags than fields, and a session array that fits the index buffer. */
  predicate Buildable(args: seq<Value>)
    requires |args| >= 1
  {
    var p := Parsed(args, |args|);
    && p.limit.Some? && InU64Range(p.limit.value)
    && p.skip.Some? && InU64Range(p.skip.value)
    && (forall i :: 0 <= i < |p.fields| ==> p.fields[i].Some?)
    && |p.sort| <= |p.fields|
    && (p.sessionsArg.Some? ==>
          p.sessionsArg.value < |args| && args[p.sessionsArg.value].Object?
          && |args[p.sessionsArg.value].entries| > 0
          && Payload(args[p.sessionsArg.value]).Array?
          && |Payload(args[p.sessionsArg.value]).items| <= 10000)
  }

  /** The requested field names. */
  function FieldNames(p: FetchParams): (names: seq<string>)
    requires forall i :: 0 <= i < |p.fields| ==> p.fields[i].Some?
    ensures |names| == |p.fields|
  {
    seq(|p.fields|, i requires 0 <= i < |p.fields| => p.fields[i].value)
  }

  /** The session ids of the `sessions_ids` argument. */
  function SessionIds(args: seq<Value>): seq<Option<string>>
    requires |args| >= 1 && Buildable(args)
    requires Parsed(args, |args|).sessionsArg.Some?
  {
    ToStrings(Payload(args[Parsed(args, |args|).sessionsArg.value]).items)
  }

  /** The filter `fetch_documents` sends: empty, or the session filter. */
  function FetchFilter(args: seq<Value>): Doc
    requires |args| >= 1 && Buildable(args)
  {
    if Parsed(args, |args|).sessionsArg.Some? then SessionFilter(SessionIds(args)) else []
  }

  /** The options `fetch_documents` sends: limit, skip, sort, projection. */
  function FetchOpts(args: seq<Value>): Doc
    requires |args| >= 1 && Buildable(args)
  {
    var p := Parsed(args, |args|);
    [("limit", BInt64(AsInt64(TruncU64(p.limit.value)))),
     ("skip", BInt64(AsInt64(TruncU64(p.skip.value)))),
     ("sort", BDocument(SortDoc(FieldNames(p), p.sort))),
     ("projection", BDocument(Projection(FieldNames(p))))]
  }

  // ---- results ----

  predicate IsNumeric(v: Bson)
  {
    v.BDouble? || v.BInt32? || v.BInt64? || v.BDateTime? || v.BTimestamp?
  }

  /** The value switch at editor_plugin.cpp:306-342. */
  function ToConfigValue(v: Bson): (r: Value)
    ensures r.Number? <==> IsNumeric(v)
    ensures r.Str? <==> v.BUtf8?
    ensures r.Bool? <==> v.BBool?
    ensures r.Nil? <==> !(IsNumeric(v) || v.BUtf8? || v.BBool?)
    ensures v.BUtf8? ==> r.s == v.s
    ensures v.BBool? ==> r.b == v.b
    ensures v.BInt32? ==> r.n == v.i as real
    ensures v.BTimestamp? ==> r.n == v.timestamp as real
  {
    match v
    case BDouble(d) => Number(d)
    case BUtf8(s) => Str(s)
    case BInt32(i) => Number(i as real)
    case BInt64(l) => Number(l as real)
    case BBool(b) => Bool(b)
    case BDateTime(ms) => Number(ms as real)
    case BTimestamp(t, _) => Number(t as real)
    case _ => Nil
  }

  /** What one document adds to the column of one field: nothing when the
      field is missing, else the converted value. */
  function Cell(doc: Doc, field: string): seq<Value>
  {
    match FindDescendant(doc, field)
    case None => []
    case Some(e) => [ToConfigValue(e.1)]
  }

  /** The column of one field over the documents, in cursor order. */
  function ColumnOf(docs: seq<Doc>, field: string): seq<Value>
  {
    if |docs| == 0 then []
    else ColumnOf(docs[..|docs| - 1], field) + Cell(docs[|docs| - 1], field)
  }

  /** Which documents hold the field. */
  function Presence(docs: seq<Doc>, field: string): (r: seq<bool>)
    ensures |r| == |docs|
  {
    seq(|docs|, d requires 0 <= d < |docs| => FindDescendant(docs[d], field).Some?)
  }

  /** A column holds one converted value per document that has the field, in
      document order. */
  lemma {:induction false} ColumnIsPresentValues(docs: seq<Doc>, field: string)
    ensures var idx := TrueIndices(Presence(docs, field));
      && (forall j :: 0 <= j < |idx| ==> idx[j] < |docs| && FindDescendant(docs[idx[j]], field).Some?)
      && |ColumnOf(docs, field)| == |idx|
      && forall j :: 0 <= j < |idx| ==>
           ColumnOf(docs, field)[j] == ToConfigValue(FindDescendant(docs[idx[j]], field).value.1)
  {
    TrueIndicesSpec(Presence(docs, field));
    if |docs| > 0 {
      var init := docs[..|docs| - 1];
      var flags := Presence(docs, field);
      ColumnIsPresentValues(init, field);
      assert flags[..|docs| - 1] == Presence(init, field);
      TrueIndicesSnoc(flags, |docs| - 1);
      assert flags[..|docs|] == flags;
      var idx, idx0 := TrueIndices(flags), TrueIndices(Presence(init, field));
      var col, col0 := ColumnOf(docs, field), ColumnOf(init, field);
      assert col == col0 + Cell(docs[|docs| - 1], field);
      forall j | 0 <= j < |idx0|
        ensures col[j] == ToConfigValue(FindDescendant(docs[idx[j]], field).value.1)
      {
        assert idx[j] == idx0[j] && init[idx0[j]] == docs[idx0[j]];
      }
    }
  }

  /** A column is never longer than the document list, and as long exactly when
      every document has the field. */
  lemma ColumnLength(docs: seq<Doc>, field: string)
    ensures |ColumnOf(docs, field)| <= |docs|
    ensures |ColumnOf(docs, field)| == |docs| <==> forall d :: 0 <= d < |docs| ==> FindDescendant(docs[d], field).Some?
  {
    ColumnIsPresentValues(docs, field);
    var flags := Presence(docs, field);
    TrueIndicesCount(flags);
  }

  /** The cursor loop at editor_plugin.cpp:294-344: every document pushes the
      converted value of each field it has onto that field's column. */
  method CollectColumns(docs: seq<Doc>, fields: seq<string>) returns (cols: seq<seq<Value>>)
    ensures |cols| == |fields|
    ensures forall i :: 0 <= i < |fields| ==> cols[i] == ColumnOf(docs, fields[i])
  {
    cols := seq(|fields|, _ => []);
    var d := 0;
    while d < |docs|
      invariant 0 <= d <= |docs|
      invariant |cols| == |fields|
      invariant forall k :: 0 <= k < |fields| ==> cols[k] == ColumnOf(docs[..d], fields[k])
    {
      assert docs[..d + 1][..d] == docs[..d];
      cols := PushDocument(cols, docs[d], fields);
      d := d + 1;
    }
    assert docs[..|docs|] == docs;
  }

  /** One turn of the cursor loop: each field the document has gets its
      converted value pushed onto its column. */
  method PushDocument(cols: seq<seq<Value>>, doc: Doc, fields: seq<string>) returns (pushed: seq<seq<Value>>)
    requires |cols| == |fields|
    ensures |pushed| == |fields|
    ensures forall k :: 0 <= k < |fields| ==> pushed[k] == cols[k] + Cell(doc, fields[k])
  {
    pushed := cols;
    var i := 0;
    while i < |fields|
      invariant 0 <= i <= |fields|
      invariant |pushed| == |fields|
      invariant forall k :: 0 <= k < i ==> pushed[k] == cols[k] + Cell(doc, fields[k])
      invariant forall k :: i <= k < |fields| ==> pushed[k] == cols[k]
    {
      var found := FindDescendant(doc, fields[i]);
      if found.Some? {
        pushed := pushed[i := pushed[i] + [ToConfigValue(found.value.1)]];
      }
      i := i + 1;
    }
  }

  /** The result object of `fetch_documents`: one array per requested field,
      keyed by the field name, in request order. */
  function DocumentsResult(fields: seq<string>, cols: seq<seq<Value>>): (r: Value)
    requires |cols| == |fields|
    ensures |fields| == 0 ==> r.Nil?
    ensures |fields| > 0 ==> r.Object? && |r.entries| == |fields|
  {
    if |fields| == 0 then Nil
    else Object(seq(|fields|, i requires 0 <= i < |fields| => (fields[i], Pushed(cols[i]))))
  }

  // ---- field keys (fetch_field_keys) ----

  /** The keys one top-level element contributes: its own key when it cannot
      be recursed into, otherwise `key.sub` for each child. */
  function EntryKeys(e: (string, Bson)): seq<string>
  {
    if IsContainer(e.1)
    then seq(|Children(e.1)|, j requires 0 <= j < |Children(e.1)| => e.0 + "." + Children(e.1)[j].0)
    else [e.0]
  }

  function FlattenKeys(doc: Doc): seq<string>
  {
    if |doc| == 0 then [] else FlattenKeys(doc[..|doc| - 1]) + EntryKeys(doc[|doc| - 1])
  }

  function FieldKeys(docs: seq<Doc>): seq<string>
  {
    if |docs| == 0 then [] else FieldKeys(docs[..|docs| - 1]) + FlattenKeys(docs[|docs| - 1])
  }

  /** A listed key is either a top-level scalar key as it is, or a container's
      key joined to one of its children's keys by a dot, and every such key is
      listed: flattening goes one level deep only. */
  lemma {:induction false} FlattenKeysMembership(doc: Doc, s: string)
    ensures s in FlattenKeys(doc) <==>
      || (exists i :: 0 <= i < |doc| && !IsContainer(doc[i].1) && s == doc[i].0)
      || (exists i, j :: 0 <= i < |doc| && IsContainer(doc[i].1) && 0 <= j < |Children(doc[i].1)|
                         && s == doc[i].0 + "." + Children(doc[i].1)[j].0)
  {
    FlattenKeysEntries(doc, s);
    if exists i, j :: 0 <= i < |doc| && IsContainer(doc[i].1) && 0 <= j < |Children(doc[i].1)|
                      && s == doc[i].0 + "." + Children(doc[i].1)[j].0 {
      var i, j :| 0 <= i < |doc| && IsContainer(doc[i].1) && 0 <= j < |Children(doc[i].1)|
                  && s == doc[i].0 + "." + Children(doc[i].1)[j].0;
      assert KeyOf(doc[i], s);
    }
    if exists i :: 0 <= i < |doc| && KeyOf(doc[i], s) {
      var i :| 0 <= i < |doc| && KeyOf(doc[i], s);
      if IsContainer(doc[i].1) {
        var j :| 0 <= j < |Children(doc[i].1)| && s == doc[i].0 + "." + Children(doc[i].1)[j].0;
      }
    }
  }

  /** `s` is one of the keys entry `e` lists. */
  predicate KeyOf(e: (string, Bson), s: string)
  {
    if IsContainer(e.1) then exists j :: 0 <= j < |Children(e.1)| && s == e.0 + "." + Children(e.1)[j].0
    else s == e.0
  }

  lemma EntryKeysMembership(e: (string, Bson), s: string)
    ensures s in EntryKeys(e) <==> KeyOf(e, s)
  {
    if IsContainer(e.1) && KeyOf(e, s) {
      var j :| 0 <= j < |Children(e.1)| && s == e.0 + "." + Children(e.1)[j].0;
      assert EntryKeys(e)[j] == s;
    }
  }

  lemma {:induction false} FlattenKeysEntries(doc: Doc, s: string)
    ensures s in FlattenKeys(doc) <==> exists i :: 0 <= i < |doc| && KeyOf(doc[i], s)
  {
    if |doc| > 0 {
      var init, last := doc[..|doc| - 1], doc[|doc| - 1];
      FlattenKeysEntries(init, s);
      EntryKeysMembership(last, s);
      assert FlattenKeys(doc) == FlattenKeys(init) + EntryKeys(last);
      if exists i :: 0 <= i < |doc| && KeyOf(doc[i], s) {
        var i :| 0 <= i < |doc| && KeyOf(doc[i], s);
        if i < |doc| - 1 {
          assert init[i] == doc[i];
        }
      }
      if exists i :: 0 <= i < |init| && KeyOf(init[i], s) {
        var i :| 0 <= i < |init| && KeyOf(init[i], s);
        assert doc[i] == init[i];
      }
    }
  }

  /** A container with every child's value replaced by null; any other value
      as it is. */
  function Stripped(v: Bson): (w: Bson)
    ensures IsContainer(v) <==> IsContainer(w)
    ensures IsContainer(v) ==> |Children(w)| == |Children(v)|
                               && forall j :: 0 <= j < |Children(v)| ==> Children(w)[j] == (Children(v)[j].0, BNull)
  {
    match v
    case BDocument(entries) => BDocument(seq(|entries|, j requires 0 <= j < |entries| => (entries[j].0, BNull)))
    case BArray(elements) => BArray(seq(|elements|, j requires 0 <= j < |elements| => (elements[j].0, BNull)))
    case _ => v
  }

  /** The document cut off below its elements' children. */
  function Shallow(doc: Doc): (d: Doc)
    ensures |d| == |doc|
  {
    seq(|doc|, i requires 0 <= i < |doc| => (doc[i].0, Stripped(doc[i].1)))
  }

  /** Flattening goes one level deep only: the keys listed for a document do
      not depend on anything below its elements' children, so a child that is
      itself a document or an array yields its own path and nothing deeper. */
  lemma {:induction false} OneLevelOnly(doc: Doc)
    ensures FlattenKeys(doc) == FlattenKeys(Shallow(doc))
  {
    if |doc| > 0 {
      var n := |doc|;
      OneLevelOnly(doc[..n - 1]);
      assert Shallow(doc)[..n - 1] == Shallow(doc[..n - 1]);
      var e, w := doc[n - 1], Shallow(doc)[n - 1];
      assert w == (e.0, Stripped(e.1));
      assert EntryKeys(w) == EntryKeys(e);
    }
  }

  /** The keys of one container's children, each prefixed with `key.` (the
      innermost loop of editor_plugin.cpp:438-448). */
  method ChildKeys(key: string, value: Bson) returns (keys: seq<string>)
    requires IsContainer(value)
    ensures keys == EntryKeys((key, value))
  {
    var children := Children(value);
    keys := [];
    var j := 0;
    while j < |children|
      invariant 0 <= j <= |children|
      invariant keys == seq(j, t requires 0 <= t < j => key + "." + children[t].0)
    {
      keys := keys + [key + "." + children[j].0];
      j := j + 1;
    }
  }

  /** The element loop at editor_plugin.cpp:429-459 over one document. */
  method FlattenDocKeys(doc: Doc) returns (keys: seq<string>)
    ensures keys == FlattenKeys(doc)
  {
    keys := [];
    var e := 0;
    while e < |doc|
      invariant 0 <= e <= |doc|
      invariant keys == FlattenKeys(doc[..e])
    {
      var key, value := doc[e].0, doc[e].1;
      assert doc[..e + 1][..e] == doc[..e];
      if !IsContainer(value) {
        keys := keys + [key];
      } else {
        var sub := ChildKeys(key, value);
        keys := keys + sub;
      }
      e := e + 1;
    }
    assert doc[..|doc|] == doc;
  }

  /** The cursor loop at editor_plugin.cpp:420-461. */
  method CollectFieldKeys(docs: seq<Doc>) returns (keys: seq<string>)
    ensures keys == FieldKeys(docs)
  {
    keys := [];
    var d := 0;
    while d < |docs|
      invariant 0 <= d <= |docs|
      invariant keys == FieldKeys(docs[..d])
    {
      var sub := FlattenDocKeys(docs[d]);
      assert docs[..d + 1][..d] == docs[..d];
      keys := keys + sub;
      d := d + 1;
    }
    assert docs[..|docs|] == docs;
  }

  // ---- session ids (fetch_sessions_ids) ----

  /** Every document that has a `session_id` holds it as a string (the source
      reads it as one without checking). */
  predicate SessionIdsAreStrings(docs: seq<Doc>)
  {
    forall d :: 0 <= d < |docs| && FindDescendant(docs[d], "session_id").Some?
      ==> FindDescendant(docs[d], "session_id").value.1.BUtf8?
  }

  /** The cursor loop at editor_plugin.cpp:96-113: the session ids are the
      `session_id` column of the documents. */
  method CollectSessionIds(docs: seq<Doc>) returns (ids: seq<Value>)
    requires SessionIdsAreStrings(docs)
    ensures ids == ColumnOf(docs, "session_id")
  {
    ids := [];
    var d := 0;
    while d < |docs|
      invariant 0 <= d <= |docs|
      invariant ids == ColumnOf(docs[..d], "session_id")
    {
      assert docs[..d + 1][..d] == docs[..d];
      var found := FindDescendant(docs[d], "session_id");
      if found.Some? {
        ids := ids + [Str(found.value.1.s)];
      }
      d := d + 1;
    }
    assert docs[..|docs|] == docs;
  }

  /** Every collected session id is a string, and there is one per document
      that has a `session_id`. */
  lemma SessionIdsAreStringValues(docs: seq<Doc>)
    requires SessionIdsAreStrings(docs)
    ensures forall k :: 0 <= k < |ColumnOf(docs, "session_id")| ==> ColumnOf(docs, "session_id")[k].Str?
  {
    ColumnIsPresentValues(docs, "session_id");
  }
}
