/** How the viewer and the two native plugins meet: what the viewer's fetch
    button sends is what the editor's argument parser accepts, what the
    editor answers is what the viewer's row projection reads, and how the
    viewer reads the editor's connection and database answers. */
module Pipeline {
  import opened Common
  import opened Values
  import opened Bson
  import opened EditorQuery
  import opened EditorPlugin
  import EnginePlugin
  import TelemetryViewer

  /** A native function's result as the viewer receives it: a null pointer
      reads as undefined. */
  function JsValue(r: Option<Value>): Value
  {
    if r.None? then Undefined else r.value
  }

  // ---- the fetch request ----

  /** The argument list of the fetch button's `fetchDocuments` call. */
  function ButtonFetchArgs(collection: string, limit: nat, skip: nat, catalog: seq<TelemetryViewer.FieldItem>,
                           sessions: Option<seq<Value>>): seq<Value>
  {
    [Str(collection), TelemetryViewer.SkipArg(skip), TelemetryViewer.LimitArg(limit),
     TelemetryViewer.FieldsArg(catalog), TelemetryViewer.SortArg(catalog)]
    + if sessions.Some? then [Object([("sessions_ids", Array(sessions.value))])] else []
  }

  /** The fetch button's documents call carries exactly these arguments:
      the session list as a sixth under POSITION only. */
  lemma ButtonFetchCall(mode: int, levelKey: Option<string>, collection: string, limit: nat, skip: nat,
                        catalog: seq<TelemetryViewer.FieldItem>, sessionsReply: Value)
    requires TelemetryViewer.Validated(Str(collection), TelemetryViewer.FieldsArg(catalog))
    requires TelemetryViewer.Dispatched(mode, levelKey, sessionsReply)
    ensures var calls := TelemetryViewer.FetchCalls(mode, levelKey, Str(collection), TelemetryViewer.LimitArg(limit),
                           TelemetryViewer.SkipArg(skip), TelemetryViewer.FieldsArg(catalog),
                           TelemetryViewer.SortArg(catalog), sessionsReply);
      && |calls| > 0 && calls[|calls| - 1].name == "fetchDocuments"
      && calls[|calls| - 1].args == ButtonFetchArgs(collection, limit, skip, catalog,
           if mode == TelemetryViewer.POSITION then Some(sessionsReply.items) else None)
  {
  }

  /** The editor parses the button's arguments into the spinner values, the
      included fields (as strings), their sort flags and the position of the
      session list: each argument object is taken for its own key. */
  lemma {:induction false} ButtonArgsParse(collection: string, limit: nat, skip: nat,
                                           catalog: seq<TelemetryViewer.FieldItem>, sessions: Option<seq<Value>>)
    ensures var args := ButtonFetchArgs(collection, limit, skip, catalog, sessions);
      Parsed(args, |args|) == FetchParams(Some(limit as real), Some(skip as real),
                                          ToStrings(TelemetryViewer.IncludedFields(catalog)),
                                          TelemetryViewer.SortFlags(catalog),
                                          if sessions.Some? then Some(5) else None)
  {
    var args := ButtonFetchArgs(collection, limit, skip, catalog, sessions);
    var flags := TelemetryViewer.SortFlags(catalog);
    assert ToBools(TelemetryViewer.BoolValues(flags)) == flags;
    assert args[1] == TelemetryViewer.SkipArg(skip) && args[2] == TelemetryViewer.LimitArg(limit);
    assert args[3] == TelemetryViewer.FieldsArg(catalog) && args[4] == TelemetryViewer.SortArg(catalog);
    assert Accepted(args[1], "skip") && !Accepted(args[1], "limit");
    assert Parsed(args, 1) == NoParams;
    var p1 := Parsed(args, 2);
    assert p1 == Step(NoParams, args[1], 1);
    assert Payload(args[1]) == Number(skip as real);
    assert p1 == NoParams.(skip := Some(skip as real));
    var p2 := Parsed(args, 3);
    assert p2 == p1.(limit := Some(limit as real));
    var p3 := Parsed(args, 4);
    assert p3 == p2.(fields := ToStrings(TelemetryViewer.IncludedFields(catalog)));
    var p4 := Parsed(args, 5);
    assert p4 == p3.(sort := flags);
    if sessions.Some? {
      assert Parsed(args, 6) == p4.(sessionsArg := Some(5));
    }
  }

  /** The viewer always sends as many sort flags as fields, so the editor
      can build its request from the button's arguments whenever the spinners
      fit in 64 bits, the fields are strings and there are at most 10000
      sessions; the limit and skip then reach the store unchanged. */
  lemma ButtonRequestBuildable(collection: string, limit: nat, skip: nat,
                               catalog: seq<TelemetryViewer.FieldItem>, sessions: Option<seq<Value>>)
    requires limit < 0x8000_0000_0000_0000 && skip < 0x8000_0000_0000_0000
    requires forall j :: 0 <= j < |TelemetryViewer.IncludedFields(catalog)| ==> TelemetryViewer.IncludedFields(catalog)[j].Str?
    requires sessions.Some? ==> |sessions.value| <= 10000
    ensures var args := ButtonFetchArgs(collection, limit, skip, catalog, sessions);
      && Buildable(args)
      && FieldNames(Parsed(args, |args|)) == seq(|TelemetryViewer.IncludedFields(catalog)|,
           j requires 0 <= j < |TelemetryViewer.IncludedFields(catalog)| => TelemetryViewer.IncludedFields(catalog)[j].s)
      && FetchOpts(args)[0] == ("limit", BInt64(limit))
      && FetchOpts(args)[1] == ("skip", BInt64(skip))
  {
    var args := ButtonFetchArgs(collection, limit, skip, catalog, sessions);
    ButtonArgsParse(collection, limit, skip, catalog, sessions);
    TelemetryViewer.ExtractorsAtTrueIndices(catalog);
    assert (limit as real).Floor == limit && (skip as real).Floor == skip;
  }

  // ---- the fetch result ----

  /** Some document has the field. */
  predicate InSomeDocument(docs: seq<Doc>, field: string)
  {
    exists d :: 0 <= d < |docs| && FindDescendant(docs[d], field).Some?
  }

  /** A column is empty exactly when no document has the field. */
  lemma ColumnEmpty(docs: seq<Doc>, field: string)
    ensures |ColumnOf(docs, field)| == 0 <==> !InSomeDocument(docs, field)
  {
    ColumnIsPresentValues(docs, field);
    var flags := Presence(docs, field);
    TrueIndicesSpec(flags);
    if InSomeDocument(docs, field) {
      var d :| 0 <= d < |docs| && FindDescendant(docs[d], field).Some?;
      assert flags[d];
      assert d in TrueIndices(flags);
    }
  }

  /** The columns of a fetch answer, one per requested field: all that the
      documents hold under the field, in document order. */
  function ColumnsOf(fields: seq<string>, docs: seq<Doc>): (cols: seq<seq<Value>>)
    ensures |cols| == |fields|
  {
    seq(|fields|, i requires 0 <= i < |fields| => ColumnOf(docs, fields[i]))
  }

  /** The editor's answer to a fetch is keyed by the requested fields, in
      order; a field's value is an array exactly when some document has the
      field, and then it is the field's column, at most one value per
      document. */
  lemma ReplyColumns(fields: seq<string>, docs: seq<Doc>)
    requires |fields| > 0
    ensures var entries := DocumentsResult(fields, ColumnsOf(fields, docs)).entries;
      && TelemetryViewer.Keys(entries) == fields
      && (forall i :: 0 <= i < |fields| ==>
            && (entries[i].1.Array? <==> InSomeDocument(docs, fields[i]))
            && |ColumnsOf(fields, docs)[i]| <= |docs|)
      && (TelemetryViewer.AllColumns(entries) ==> TelemetryViewer.Columns(entries) == ColumnsOf(fields, docs))
  {
    var cols := ColumnsOf(fields, docs);
    var entries := DocumentsResult(fields, cols).entries;
    assert forall i :: 0 <= i < |fields| ==> entries[i] == (fields[i], Pushed(cols[i]));
    forall i | 0 <= i < |fields|
      ensures entries[i].1.Array? <==> InSomeDocument(docs, fields[i])
      ensures |cols[i]| <= |docs|
    {
      ColumnEmpty(docs, fields[i]);
      ColumnLength(docs, fields[i]);
    }
  }

  /** The editor's answer to a fetch, for distinct requested fields, is a
      reply the viewer can read; the viewer lists its rows exactly when every
      field is in some document (a field found nowhere gives a nil column and
      the viewer throws), and then lists at most one row per document, and
      one per document when some field is in all of them. */
  lemma EditorResultInViewer(fields: seq<string>, docs: seq<Doc>)
    requires |fields| > 0 && TelemetryViewer.DistinctKeys(fields)
    ensures var cols := ColumnsOf(fields, docs);
      var reply := DocumentsResult(fields, cols);
      && TelemetryViewer.DocumentsReply(reply)
      && TelemetryViewer.Keys(reply.entries) == fields
      && (TelemetryViewer.AllColumns(reply.entries) <==> forall i :: 0 <= i < |fields| ==> InSomeDocument(docs, fields[i]))
      && (TelemetryViewer.AllColumns(reply.entries) ==>
            && TelemetryViewer.Columns(reply.entries) == cols
            && |TelemetryViewer.ProjectedRows(reply.entries)| <= |docs|
            && ((exists i :: 0 <= i < |fields| && forall d :: 0 <= d < |docs| ==> FindDescendant(docs[d], fields[i]).Some?)
                  ==> |TelemetryViewer.ProjectedRows(reply.entries)| == |docs|))
  {
    var cols := ColumnsOf(fields, docs);
    var reply := DocumentsResult(fields, cols);
    ReplyColumns(fields, docs);
    if TelemetryViewer.AllColumns(reply.entries) {
      var n := TelemetryViewer.MaxLength(cols);
      assert |TelemetryViewer.ProjectedRows(reply.entries)| == n;
      if exists i :: 0 <= i < |fields| && forall d :: 0 <= d < |docs| ==> FindDescendant(docs[d], fields[i]).Some? {
        var i :| 0 <= i < |fields| && forall d :: 0 <= d < |docs| ==> FindDescendant(docs[d], fields[i]).Some?;
        ColumnLength(docs, fields[i]);
      }
    }
  }

  /** Under POSITION the viewer copies the editor's session answer; when no
      session of the level is found the answer is nil and the viewer throws
      before fetching the documents. */
  lemma SessionsReplyInViewer(docs: seq<Doc>)
    ensures JsValue(Some(Pushed(ColumnOf(docs, "session_id")))).Array? <==> InSomeDocument(docs, "session_id")
  {
    ColumnEmpty(docs, "session_id");
  }

  // ---- connection and database answers ----

  /** Switching the editor to another server replaces its client but answers
      nil, which the viewer takes for a failure: it neither tells the viewport
      nor records the new address. The engine answers true for the same
      switch. */
  lemma SwitchedServerLooksFailed(current: string, address: string)
    requires current != address
    ensures var (c, r) := ServerStep(Some(current), [Str(address)], true);
      c == Some(address) && !Truthy(JsValue(r))
    ensures EnginePlugin.ConnectStep(Some(current), address, true) == (Some(address), true)
  {
  }

  /** The viewer keeps its collection list exactly when the editor refuses the
      database (no client, or the database already selected), or when the
      database holds a single collection whose name reads as zero; a database
      without collections answers nil, which the viewer takes as its
      collection list. */
  lemma DatabaseAnswerInViewer(client: Option<string>, database: Option<string>, name: string,
                               names: Option<seq<string>>)
    ensures var (_, r) := DatabaseStep(client, database, [Str(name)], names);
      && (LooseEqualsFalse(JsValue(r)) <==>
            || client.None? || database == Some(name)
            || (names.Some? && |names.value| == 1 && StringIsZero(names.value[0])))
      && (!(client.None? || database == Some(name)) && (names.None? || |names.value| == 0) ==> JsValue(r) == Nil)
  {
    var (_, r) := DatabaseStep(client, database, [Str(name)], names);
    if !(client.None? || database == Some(name)) && names.Some? && |names.value| > 1 {
      ArrayLooseEqualsFalse(JsValue(r).items);
    }
  }
}
