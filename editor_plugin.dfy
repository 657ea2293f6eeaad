/** The editor's native extension (editor/editor_plugin.cpp): the functions the
    viewer calls through `nativeExtension`, over the extension's three globals
    (the store client, the selected database and the last collection handle).

    A handle is modelled by the name it was opened with. What the store answers
    (the documents of a cursor, the list of collection names) is a parameter,
    and every query sent is appended to `finds`. A native function's result is
    `Option<Value>`: None is a null pointer, `Some(Nil)` a ConfigValue nil. */
module EditorPlugin {
  import opened Common
  import opened Values
  import opened Bson
  import opened EditorQuery

  /** CD_TYPE_NULL: JavaScript null and undefined both arrive as nil. */
  predicate IsNullArg(v: Value)
  {
    IsNullish(v)
  }

  // ---- init_server ----

  /** The new client and the result of `init_server`. `uriValid` stands for
      whether libmongoc parses the address; an address it rejects leaves the
      client null. */
  function ServerStep(client: Option<string>, args: seq<Value>, uriValid: bool): (Option<string>, Option<Value>)
  {
    var newClient := if uriValid && |args| >= 1 && args[0].Str? then Some(args[0].s) else None;
    if |args| < 1 then (client, None)
    else if IsNullArg(args[0]) then (client, Some(Nil))
    else if !args[0].Str? then (client, Some(Nil))
    else if client.None? then (newClient, Some(Bool(true)))
    else if client.value != args[0].s then (newClient, Some(Nil))
    else (client, Some(Bool(false)))
  }

  /** Whether `init_server` destroys the current client: it is asked for
      another server than the one connected. The database handle opened on
      that client is kept. */
  predicate SwitchesServer(client: Option<string>, args: seq<Value>)
  {
    |args| >= 1 && args[0].Str? && client.Some? && client.value != args[0].s
  }

  /** Only a first connection reports true; asking again for the server already
      connected reports false and keeps the client; switching to another server
      replaces the client but reports nil, which is neither. */
  lemma ServerResults(client: Option<string>, address: string, uriValid: bool)
    ensures ServerStep(client, [Str(address)], uriValid).1 == Some(Bool(true)) <==> client.None?
    ensures ServerStep(client, [Str(address)], uriValid).1 == Some(Bool(false)) <==> client == Some(address)
    ensures client.Some? && client.value != address ==>
              ServerStep(client, [Str(address)], uriValid) == (if uriValid then Some(address) else None, Some(Nil))
  {
  }

  /** Connecting twice to the same (valid) server: the second call reports
      false and changes nothing. */
  lemma {:induction false} ServerIdempotent(client: Option<string>, address: string)
    ensures var (c1, _) := ServerStep(client, [Str(address)], true);
            var (c2, r2) := ServerStep(c1, [Str(address)], true);
            c2 == c1 == Some(address) && r2 == Some(Bool(false))
  {
    var (c1, _) := ServerStep(client, [Str(address)], true);
    assert c1 == Some(address);
  }

  // ---- init_database ----

  /** What `fetch_collection_names` leaves in the result: the names, pushed;
      nothing when listing fails (None) or the database has no collection. */
  function NamesValue(names: Option<seq<string>>): (r: Value)
    ensures names.Some? && |names.value| > 0 ==>
              r.Array? && |r.items| == |names.value|
              && forall i :: 0 <= i < |names.value| ==> r.items[i] == Str(names.value[i])
    ensures names.None? || |names.value| == 0 ==> r.Nil?
  {
    if names.None? then Nil
    else Pushed(seq(|names.value|, i requires 0 <= i < |names.value| => Str(names.value[i])))
  }

  /** `init_database` lists collections of `database` even for an argument that
      is neither nil nor a string; that needs a database whose client is still
      the current one (`live`). */
  predicate DatabaseCallable(database: Option<string>, live: bool, args: seq<Value>)
  {
    |args| >= 1 && !IsNullArg(args[0]) && !args[0].Str? ==> database.Some? && live
  }

  /** Whether `init_database` opens a new database handle on the current
      client: a name, a client, and no database or another one selected. */
  predicate OpensDatabase(client: Option<string>, database: Option<string>, args: seq<Value>)
  {
    |args| >= 1 && args[0].Str? && client.Some? && (database.None? || database.value != args[0].s)
  }

  /** The new database and the result of `init_database`; `names` is what
      listing the resulting database's collections gives. */
  function DatabaseStep(client: Option<string>, database: Option<string>, args: seq<Value>,
                        names: Option<seq<string>>): (Option<string>, Option<Value>)
  {
    if |args| < 1 then (database, None)
    else if IsNullArg(args[0]) then (database, Some(Nil))
    else if !args[0].Str? then (database, Some(NamesValue(names)))
    else if client.None? then (database, Some(Bool(false)))
    else if database.None? || database.value != args[0].s then (Some(args[0].s), Some(NamesValue(names)))
    else (database, Some(Bool(false)))
  }

  /** Selecting a database by name reports false, and keeps the selection,
      exactly when there is no client or that database is already selected;
      otherwise it selects it and answers its collection names. */
  lemma DatabaseResults(client: Option<string>, database: Option<string>, name: string, names: Option<seq<string>>)
    ensures var (d, r) := DatabaseStep(client, database, [Str(name)], names);
      && (r == Some(Bool(false)) <==> client.None? || database == Some(name))
      && (r == Some(Bool(false)) ==> d == database)
      && (r != Some(Bool(false)) ==> d == Some(name) && r == Some(NamesValue(names)))
  {
    var (d, r) := DatabaseStep(client, database, [Str(name)], names);
    if r == Some(Bool(false)) {
      assert client.None? || database == Some(name);
    }
  }

  /** After a switch of server the old database handle stays selected but
      belongs to the destroyed client, and selecting it again by its name
      answers false without reopening it: only another name replaces it. */
  lemma StaleDatabaseKept(client: Option<string>, address: string, uriValid: bool, name: string,
                          names: Option<seq<string>>)
    requires SwitchesServer(client, [Str(address)])
    ensures var (c, _) := ServerStep(client, [Str(address)], uriValid);
      && !OpensDatabase(c, Some(name), [Str(name)])
      && DatabaseStep(c, Some(name), [Str(name)], names) == (Some(name), Some(Bool(false)))
  {
  }

  // ---- fetch_field_keys ----

  /** The options of the field-key query: skip 6 for `tech_performance`,
      one document, without `_id`. */
  function FieldKeyOpts(collection: string): (opts: Doc)
    ensures |opts| >= 2
    ensures collection == "tech_performance" ==> opts[0] == ("skip", BInt64(6))
    ensures FindKey(opts, "limit").Some? && opts[FindKey(opts, "limit").value].1 == BInt64(1)
  {
    (if collection == "tech_performance" then [("skip", BInt64(6))] else [])
    + [("limit", BInt64(1)), ("projection", BDocument([("_id", BBool(false))]))]
  }

  /** The field-key list as ConfigValues. */
  function KeysValue(keys: seq<string>): Value
  {
    Pushed(seq(|keys|, i requires 0 <= i < |keys| => Str(keys[i])))
  }

  // ---- fetch_sessions_ids ----

  /** The query for the sessions of a level: up to 3000 `session_start`
      documents of that level key, projected to their `session_id`. */
  function SessionsQuery(level: Option<string>): Find
  {
    Find("session_start",
         [("params.level_key", Utf8OrNull(level))],
         [("limit", BInt64(3000)),
          ("projection", BDocument([("_id", BBool(false)), ("session_id", BBool(true))]))])
  }

  class Plugin {
    var client: Option<string>
    var database: Option<string>
    var collection: Option<string>
    /** Every query sent to the store, in order. */
    var finds: seq<Find>
    /** Whether `database` was opened on the current client: a switch of
        server destroys the client and leaves the handle dangling. */
    ghost var databaseLive: bool

    constructor()
      ensures client == None && database == None && collection == None && finds == []
      ensures !databaseLive
    {
      client := None;
      database := None;
      collection := None;
      finds := [];
      databaseLive := false;
    }

    /** init_server (editor_plugin.cpp:500-535). */
    method InitServer(args: seq<Value>, uriValid: bool) returns (r: Option<Value>)
      modifies this`client, this`databaseLive
      ensures (client, r) == ServerStep(old(client), args, uriValid)
      ensures databaseLive == (old(databaseLive) && !SwitchesServer(old(client), args))
    {
      if |args| < 1 {
        return None;
      }
      var success := Nil;
      var arg := args[0];
      if IsNullArg(arg) {
        return Some(Nil);
      } else if arg.Str? {
        var address := arg.s;
        if client.None? {
          client := if uriValid then Some(address) else None;
          success := Bool(true);
        } else if client.value != address {
          client := if uriValid then Some(address) else None;
          databaseLive := false;
        } else {
          success := Bool(false);
        }
      }
      r := Some(success);
    }

    /** init_database (editor_plugin.cpp:541-586) with fetch_collection_names
        (474-494). */
    method InitDatabase(args: seq<Value>, names: Option<seq<string>>) returns (r: Option<Value>)
      requires DatabaseCallable(database, databaseLive, args)
      modifies this`database, this`databaseLive
      ensures (database, r) == DatabaseStep(client, old(database), args, names)
      ensures databaseLive == (old(databaseLive) || OpensDatabase(client, old(database), args))
    {
      if |args| < 1 {
        return None;
      }
      var success := true;
      var result := Nil;
      var arg := args[0];
      if IsNullArg(arg) {
        return Some(Nil);
      } else if arg.Str? {
        var name := arg.s;
        if client.None? {
          result := Bool(false);
          success := false;
        } else if database.None? {
          database := Some(name);
          databaseLive := true;
        } else if database.value != name {
          database := Some(name);
          databaseLive := true;
        } else {
          result := Bool(false);
          success := false;
        }
      }
      if success {
        result := NamesValue(names);
      }
      r := Some(result);
    }

    /** fetch_sessions_ids (editor_plugin.cpp:59-121): `docs` is what the
        cursor yields. */
    method FetchSessionsIds(args: seq<Value>, docs: seq<Doc>) returns (r: Option<Value>)
      requires database.Some? && databaseLive
      requires SessionIdsAreStrings(docs)
      modifies this`collection, this`finds
      ensures |args| < 1 ==> r == None && collection == old(collection) && finds == old(finds)
      ensures |args| >= 1 ==>
        && collection == Some("session_start")
        && finds == old(finds) + [SessionsQuery(ToStr(args[0]))]
        && r == Some(Pushed(ColumnOf(docs, "session_id")))
    {
      if |args| < 1 {
        return None;
      }
      collection := Some("session_start");
      var level := ToStr(args[0]);
      finds := finds + [SessionsQuery(level)];
      var ids := CollectSessionIds(docs);
      r := Some(Pushed(ids));
    }

    /** fetch_documents (editor_plugin.cpp:126-356): parse the arguments,
        build filter and options, run the query, gather one column per
        requested field. */
    method FetchDocuments(args: seq<Value>, docs: seq<Doc>) returns (r: Option<Value>)
      requires |args| >= 1 && args[0].Str? ==> database.Some? && databaseLive && Buildable(args)
      modifies this`collection, this`finds
      ensures (|args| < 1 || !args[0].Str?) ==> r == None && collection == old(collection) && finds == old(finds)
      ensures |args| >= 1 && args[0].Str? ==>
        var names := FieldNames(Parsed(args, |args|));
        && collection == Some(args[0].s)
        && finds == old(finds) + [Find(args[0].s, FetchFilter(args), FetchOpts(args))]
        && r == Some(DocumentsResult(names, seq(|names|, i requires 0 <= i < |names| => ColumnOf(docs, names[i]))))
    {
      if |args| < 1 || !args[0].Str? {
        return None;
      }
      var name := args[0].s;
      collection := Some(name);
      var p := ParseFetchArgs(args);
      var filter: Doc := [];
      var fields := FieldNames(p);
      if p.sessionsArg.Some? {
        var ids := ToStrings(Payload(args[p.sessionsArg.value]).items);
        filter := BuildSessionFilter(ids);
      }
      var sortDoc := BuildSortDoc(fields, p.sort);
      var projection := BuildProjection(fields);
      var opts := [("limit", BInt64(AsInt64(TruncU64(p.limit.value)))),
                   ("skip", BInt64(AsInt64(TruncU64(p.skip.value)))),
                   ("sort", BDocument(sortDoc)),
                   ("projection", BDocument(projection))];
      finds := finds + [Find(name, filter, opts)];
      var cols := CollectColumns(docs, fields);
      assert cols == seq(|fields|, i requires 0 <= i < |fields| => ColumnOf(docs, fields[i]));
      r := Some(DocumentsResult(fields, cols));
    }

    /** fetch_field_keys (editor_plugin.cpp:361-469): the keys of the first
        document of a collection, flattened one level. */
    method FetchFieldKeys(args: seq<Value>, docs: seq<Doc>) returns (r: Option<Value>)
      requires |args| >= 1 && args[0].Str? ==> database.Some? && databaseLive
      modifies this`collection, this`finds
      ensures |args| >= 1 && IsNullArg(args[0]) ==> r == Some(Nil)
      ensures (|args| < 1 || (!IsNullArg(args[0]) && !args[0].Str?)) ==> r == None
      ensures !(|args| >= 1 && args[0].Str?) ==> collection == old(collection) && finds == old(finds)
      ensures |args| >= 1 && args[0].Str? ==>
        && collection == Some(args[0].s)
        && finds == old(finds) + [Find(args[0].s, [], FieldKeyOpts(args[0].s))]
        && r == Some(KeysValue(FieldKeys(docs)))
    {
      if |args| < 1 {
        return None;
      }
      var arg := args[0];
      if IsNullArg(arg) {
        return Some(Nil);
      }
      if !arg.Str? {
        return None;
      }
      var name := arg.s;
      collection := Some(name);
      finds := finds + [Find(name, [], FieldKeyOpts(name))];
      var keys := CollectFieldKeys(docs);
      r := Some(KeysValue(keys));
    }
  }
}
