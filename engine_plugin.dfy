/** The runtime plugin's Lua functions (engine/engine_plugin.cpp): connecting,
    selecting a database, and `fetch_field_data`, which queries position
    telemetry of a set of sessions and returns one Lua table per requested
    field.

    The Lua stack is a class whose `stack` sequence the API calls change; a
    table is a value held in its stack slot and `rawseti` replaces it there.
    What the table walks (`lua_next`) visit is passed in visiting order, and
    what the store answers (the count and the documents) is a parameter; every
    query sent is appended to `finds`, every count to `counts`. */
module EnginePlugin {
  import opened Common
  import opened Bson

  const MAX_FIELDS: nat := 10

  /** A Lua value. `LAtof(text)` is the number C's `atof` reads from the start
      of `text`; the text-to-number conversion itself is not modelled. `hint`
      is the array-size hint a table was created with. */
  datatype LuaValue =
    | LNil
    | LBool(b: bool)
    | LNumber(n: real)
    | LString(s: string)
    | LAtof(text: string)
    | LTable(hint: int, entries: map<int, LuaValue>)
    | LOther

  /** `lua_tolstring` on a string argument; any other kind gives null (numbers
      are excluded by the callers' preconditions: their text form is not
      modelled). */
  function ToLString(v: LuaValue): Option<string>
  {
    if v.LString? then Some(v.s) else None
  }

  /** `lua_tonumber` on a non-string argument: its number, or 0. */
  function ToLNumber(v: LuaValue): real
  {
    if v.LNumber? then v.n else 0.0
  }

  /** The Lua stack of one call: `stack[i - 1]` is the value at index i. */
  class LuaState {
    var stack: seq<LuaValue>

    constructor(args: seq<LuaValue>)
      ensures stack == args
    {
      stack := args;
    }

    /** `lua_pushboolean`. */
    method PushBoolean(b: bool)
      modifies this
      ensures stack == old(stack) + [LBool(b)]
    {
      stack := stack + [LBool(b)];
    }

    /** `lua_createtable`: a new empty table on top of the stack. */
    method CreateTable(hint: int)
      modifies this
      ensures stack == old(stack) + [LTable(hint, map[])]
    {
      stack := stack + [LTable(hint, map[])];
    }

    /** A value pushed and then stored by `lua_rawseti` into the table at
        stack index `index`: a nil value removes the key. */
    method RawSetI(index: int, key: int, v: LuaValue)
      requires 1 <= index <= |stack| && stack[index - 1].LTable?
      modifies this
      ensures stack == old(stack)[index - 1 := LTable(old(stack)[index - 1].hint,
                                                     SetSlot(old(stack)[index - 1].entries, key, v))]
    {
      var t := stack[index - 1];
      stack := stack[index - 1 := LTable(t.hint, SetSlot(t.entries, key, v))];
    }
  }

  /** `t[key] = v` for a raw set: assigning nil deletes the key. */
  function SetSlot(t: map<int, LuaValue>, key: int, v: LuaValue): (r: map<int, LuaValue>)
    ensures v.LNil? ==> key !in r
    ensures !v.LNil? ==> key in r && r[key] == v
    ensures forall k :: k != key ==> (k in r <==> k in t) && (k in r ==> r[k] == t[k])
  {
    if v.LNil? then t - {key} else t[key := v]
  }

  // ---- connection globals ----

  /** The new client and the boolean `connect_to_database` pushes, for a
      string address; `uriValid` stands for whether libmongoc parses it. */
  function ConnectStep(client: Option<string>, address: string, uriValid: bool): (Option<string>, bool)
  {
    if client.None? || client.value != address then (if uriValid then Some(address) else None, true)
    else (client, false)
  }

  /** The new database and the boolean `select_database` pushes. */
  function SelectStep(client: Option<string>, database: Option<string>, name: string): (Option<string>, bool)
  {
    if client.None? then (database, false)
    else if database.None? || database.value != name then (Some(name), true)
    else (database, false)
  }

  /** Whether `connect_to_database` destroys the current client: it is asked
      for another server than the one connected. The database handle opened
      on that client is kept. */
  predicate SwitchesClient(client: Option<string>, address: string)
  {
    client.Some? && client.value != address
  }

  /** Whether `select_database` opens a new database handle on the current
      client. */
  predicate OpensHandle(client: Option<string>, database: Option<string>, name: string)
  {
    client.Some? && (database.None? || database.value != name)
  }

  /** Connecting reports false exactly when asked for the server already
      connected, which it keeps; a second identical call always reports false. */
  lemma {:induction false} ConnectResults(client: Option<string>, address: string)
    ensures !ConnectStep(client, address, true).1 <==> client == Some(address)
    ensures ConnectStep(client, address, true).0 == Some(address)
    ensures var c1 := ConnectStep(client, address, true).0;
            ConnectStep(c1, address, true) == (c1, false)
  {
    var c1 := ConnectStep(client, address, true).0;
    assert c1 == Some(address);
  }

  /** Selecting reports true exactly when there is a client and the database
      is not the one already selected; then it is selected. */
  lemma SelectResults(client: Option<string>, database: Option<string>, name: string)
    ensures SelectStep(client, database, name).1 <==> client.Some? && database != Some(name)
    ensures SelectStep(client, database, name).1 ==> SelectStep(client, database, name).0 == Some(name)
    ensures !SelectStep(client, database, name).1 ==> SelectStep(client, database, name).0 == database
  {
  }

  /** After a switch of server the old database handle stays selected but
      belongs to the destroyed client; selecting it again by its name reports
      false without reopening it, so only another name replaces it. */
  lemma StaleHandleKept(client: Option<string>, address: string, uriValid: bool, name: string)
    requires SwitchesClient(client, address)
    ensures var c := ConnectStep(client, address, uriValid).0;
      && !OpensHandle(c, Some(name), name)
      && SelectStep(c, Some(name), name) == (Some(name), false)
  {
  }

  // ---- the request ----

  /** One slot of the fixed-size field table. `ind` is a uint8_t whose default
      -1 reads as 255. */
  datatype Field = Field(name: Option<string>, ind: int)

  const UnsetField := Field(None, 255)

  /** The first n slots of the field table are named and slot n is not: the
      walks over the table stop at slot n. */
  predicate NamedUpTo(fields: seq<Field>, n: nat)
  {
    n < |fields| && fields[n].name.None? && forall k :: 0 <= k < n ==> fields[k].name.Some?
  }

  /** The names of the first n slots. */
  function SlotNames(fields: seq<Field>, n: nat): (names: seq<string>)
    requires n <= |fields| && forall k :: 0 <= k < n ==> fields[k].name.Some?
    ensures |names| == n
    ensures forall k :: 0 <= k < n ==> fields[k].name == Some(names[k])
  {
    seq(n, k requires 0 <= k < n => fields[k].name.value)
  }

  /** `sort_data_by`: ascending by tick. */
  function SortByTick(opts: Doc): Doc
  {
    opts + [("sort", BDocument([("tick", BInt32(1))]))]
  }

  /** The options `fetch_field_data` sends: the limit, the projection of the
      requested fields, the sort by tick. */
  function EngineOpts(limit: real, names: seq<string>): Doc
    requires InU64Range(limit)
  {
    [("limit", BInt64(AsInt64(TruncU64(limit)))),
     ("projection", BDocument(Projection(names))),
     ("sort", BDocument([("tick", BInt32(1))]))]
  }

  /** The size hint `create_lua_tables` gives a field's table (position gets
      the object count, the others three times it). */
  function Hint(name: string, nObjects: int): int
  {
    if name == "params.position" then nObjects else 3 * nObjects
  }

  // ---- the tables ----

  /** A `Vector3(x, y, z)` text the position parser can walk: at least the
      eight characters it skips, then two commas. */
  predicate IsVector3Text(s: string)
  {
    && |s| >= 8
    && FirstIndexOf(s[8..], ',').Some?
    && FirstIndexOf(s[8 + FirstIndexOf(s[8..], ',').value + 1..], ',').Some?
  }

  /** The texts `atof` reads x, y and z from: after the eight skipped
      characters, after the first comma, after the next comma. */
  function Vector3Parts(s: string): (parts: (string, string, string))
    requires IsVector3Text(s)
    ensures parts.0 == s[8..]
    ensures |parts.1| < |parts.0| && |parts.2| < |parts.1|
    ensures var i := |parts.0| - |parts.1| - 1;
              parts.0[i] == ',' && ',' !in parts.0[..i] && parts.1 == parts.0[i + 1..]
    ensures var j := |parts.1| - |parts.2| - 1;
              parts.1[j] == ',' && ',' !in parts.1[..j] && parts.2 == parts.1[j + 1..]
  {
    var c1 := FirstIndexOf(s[8..], ',').value;
    var y := s[8 + c1 + 1..];
    var c2 := FirstIndexOf(y, ',').value;
    assert s[8..][c1 + 1..] == y;
    (s[8..], y, y[c2 + 1..])
  }

  /** How a scalar value lands in its table: strings, doubles, 32-bit
      integers and booleans are kept; every other type becomes nil. */
  function Slot(v: Bson): (r: LuaValue)
    ensures r.LNil? <==> !(v.BUtf8? || v.BDouble? || v.BInt32? || v.BBool?)
  {
    match v
    case BUtf8(s) => LString(s)
    case BDouble(d) => LNumber(d)
    case BInt32(i) => LNumber(i as real)
    case BBool(b) => LBool(b)
    case _ => LNil
  }

  /** Every position element the parser meets is a well-formed Vector3 text. */
  predicate PositionsParse(docs: seq<Doc>, name: string)
  {
    forall d {:trigger FindDescendant(docs[d], name)} :: 0 <= d < |docs| && FindDescendant(docs[d], name).Some?
                && FindDescendant(docs[d], name).value.0 == "position"
      ==> FindDescendant(docs[d], name).value.1.BUtf8?
          && IsVector3Text(FindDescendant(docs[d], name).value.1.s)
  }

  /** What object number objN (counted from 1) writes into the table of one
      field: its scalar at objN, or the three coordinates of its position at
      3objN-2, 3objN-1 and 3objN; nothing when the field is missing (nor for
      a position text the parser cannot walk, which `PositionsParse`
      excludes). */
  function WriteField(t: map<int, LuaValue>, name: string, doc: Doc, objN: int): map<int, LuaValue>
  {
    WriteFound(t, FindDescendant(doc, name), objN)
  }

  /** `WriteField` once the lookup of the field is done. */
  function WriteFound(t: map<int, LuaValue>, found: Option<(string, Bson)>, objN: int): map<int, LuaValue>
  {
    match found
    case None => t
    case Some(e) =>
      if e.0 != "position" then SetSlot(t, objN, Slot(e.1))
      else if e.1.BUtf8? && IsVector3Text(e.1.s) then
        var p := Vector3Parts(e.1.s);
        SetSlot(SetSlot(SetSlot(t, objN * 3 - 2, LAtof(p.0)), objN * 3 + 1 - 2, LAtof(p.1)),
                objN * 3 + 2 - 2, LAtof(p.2))
      else t
  }

  lemma PositionsParsePrefix(docs: seq<Doc>, name: string, n: nat)
    requires PositionsParse(docs, name) && n <= |docs|
    ensures PositionsParse(docs[..n], name)
    ensures n < |docs| ==> PositionsParse([docs[n]], name)
  {
    if n < |docs| {
      assert [docs[n]][0] == docs[n];
    }
  }

  /** The table of one field after all documents, in cursor order. */
  function FieldTable(docs: seq<Doc>, name: string): map<int, LuaValue>
  {
    if |docs| == 0 then map[]
    else WriteField(FieldTable(docs[..|docs| - 1], name), name, docs[|docs| - 1], |docs|)
  }

  /** A field whose path does not end in `position` gets a sequence-like
      table: document d (from 0) owns key d+1, which holds its converted value,
      and is absent when the document lacks the field or the value converts to
      nil; no other key is set. */
  lemma {:induction false} ScalarSlots(docs: seq<Doc>, name: string)
    requires LastSegment(name) != "position"
    ensures var t := FieldTable(docs, name);
      && (forall k :: k in t ==> 1 <= k <= |docs|)
      && forall d :: 0 <= d < |docs| ==>
           && (d + 1 in t <==> FindDescendant(docs[d], name).Some?
                               && !Slot(FindDescendant(docs[d], name).value.1).LNil?)
           && (d + 1 in t ==> t[d + 1] == Slot(FindDescendant(docs[d], name).value.1))
  {
    forall d | 0 <= d < |docs| && FindDescendant(docs[d], name).Some?
      ensures FindDescendant(docs[d], name).value.0 != "position"
    {
      FoundKeyIsLastSegment(docs[d], name);
    }
    if |docs| > 0 {
      var init := docs[..|docs| - 1];
      ScalarSlots(init, name);
      assert forall d :: 0 <= d < |init| ==> init[d] == docs[d];
      var last := docs[|docs| - 1];
      if FindDescendant(last, name).Some? {
        FoundKeyIsLastSegment(last, name);
      }
    }
  }

  /** A found position writes its three coordinates and nothing else. */
  lemma PositionFoundWrite(t: map<int, LuaValue>, e: (string, Bson), objN: int)
    requires e.0 == "position" && e.1.BUtf8? && IsVector3Text(e.1.s)
    ensures var p := Vector3Parts(e.1.s);
      WriteFound(t, Some(e), objN)
        == t[3 * objN - 2 := LAtof(p.0)][3 * objN - 1 := LAtof(p.1)][3 * objN := LAtof(p.2)]
  {
    var p := Vector3Parts(e.1.s);
    var t1 := t[3 * objN - 2 := LAtof(p.0)];
    var t2 := t1[3 * objN - 1 := LAtof(p.1)];
    assert objN * 3 + 1 - 2 == 3 * objN - 1 && objN * 3 + 2 - 2 == 3 * objN;
    SetSlotValue(t, 3 * objN - 2, LAtof(p.0));
    SetSlotValue(t1, 3 * objN - 1, LAtof(p.1));
    SetSlotValue(t2, 3 * objN, LAtof(p.2));
  }

  /** Setting a non-nil value is a plain map update. */
  lemma SetSlotValue(t: map<int, LuaValue>, key: int, v: LuaValue)
    requires !v.LNil?
    ensures SetSlot(t, key, v) == t[key := v]
  {
  }

  /** A document with a position writes its three coordinates and nothing
      else. */
  lemma PositionWrite(t: map<int, LuaValue>, name: string, doc: Doc, objN: int)
    requires PositionsParse([doc], name)
    requires FindDescendant(doc, name).Some? && FindDescendant(doc, name).value.0 == "position"
    ensures [doc][0] == doc
    ensures var v := FindDescendant(doc, name).value.1;
      && v.BUtf8? && IsVector3Text(v.s)
      && var p := Vector3Parts(v.s);
         WriteField(t, name, doc, objN)
           == t[3 * objN - 2 := LAtof(p.0)][3 * objN - 1 := LAtof(p.1)][3 * objN := LAtof(p.2)]
  {
    assert [doc][0] == doc;
    var e := FindDescendant(doc, name).value;
    assert e.1.BUtf8? && IsVector3Text(e.1.s);
    PositionFoundWrite(t, e, objN);
  }

  /** Document d (from 0) owns keys 3d+1, 3d+2 and 3d+3 of a position
      table: they hold the x, y and z texts of its Vector3 when it has the
      field and are absent otherwise. */
  predicate OwnsPosition(t: map<int, LuaValue>, doc: Doc, name: string, d: int)
  {
    OwnsFound(t, FindDescendant(doc, name), d)
  }

  /** `OwnsPosition` once the lookup of the field is done. */
  predicate OwnsFound(t: map<int, LuaValue>, found: Option<(string, Bson)>, d: int)
  {
    && (3 * d + 1 in t <==> found.Some?)
    && (3 * d + 2 in t <==> found.Some?)
    && (3 * d + 3 in t <==> found.Some?)
    && (found.Some? ==>
          && found.value.1.BUtf8? && IsVector3Text(found.value.1.s)
          && t[3 * d + 1] == LAtof(Vector3Parts(found.value.1.s).0)
          && t[3 * d + 2] == LAtof(Vector3Parts(found.value.1.s).1)
          && t[3 * d + 3] == LAtof(Vector3Parts(found.value.1.s).2))
  }

  /** Keys outside 3d+1..3d+3 do not touch document d's slots. */
  lemma OwnsPositionFrame(t0: map<int, LuaValue>, t: map<int, LuaValue>, doc: Doc, name: string, d: int)
    requires OwnsPosition(t0, doc, name, d)
    requires forall k :: 3 * d + 1 <= k <= 3 * d + 3 ==> (k in t <==> k in t0) && (k in t ==> t[k] == t0[k])
    ensures OwnsPosition(t, doc, name, d)
  {
  }

  /** The last document's write to a position table: its own three slots,
      nothing below them. */
  lemma {:induction false} PositionStep(t0: map<int, LuaValue>, name: string, last: Doc, n: int)
    requires LastSegment(name) == "position"
    requires PositionsParse([last], name)
    requires n >= 1 && forall k :: k in t0 ==> 1 <= k <= 3 * (n - 1)
    ensures var t := WriteField(t0, name, last, n);
      && (forall k :: k in t ==> 1 <= k <= 3 * n)
      && (forall k :: k <= 3 * (n - 1) ==> (k in t <==> k in t0) && (k in t ==> t[k] == t0[k]))
      && OwnsPosition(t, last, name, n - 1)
  {
    var found := FindDescendant(last, name);
    if found.Some? {
      FoundKeyIsLastSegment(last, name);
      assert [last][0] == last;
      PositionFoundStep(t0, found.value, n);
    } else {
      assert WriteField(t0, name, last, n) == t0;
    }
  }

  /** `PositionStep` for the position element found in the last document. */
  lemma PositionFoundStep(t0: map<int, LuaValue>, e: (string, Bson), n: int)
    requires e.0 == "position" && e.1.BUtf8? && IsVector3Text(e.1.s)
    requires n >= 1 && forall k :: k in t0 ==> 1 <= k <= 3 * (n - 1)
    ensures var t := WriteFound(t0, Some(e), n);
      && (forall k :: k in t ==> 1 <= k <= 3 * n)
      && (forall k :: k <= 3 * (n - 1) ==> (k in t <==> k in t0) && (k in t ==> t[k] == t0[k]))
      && OwnsFound(t, Some(e), n - 1)
  {
    PositionFoundWrite(t0, e, n);
    assert 3 * (n - 1) + 1 == 3 * n - 2 && 3 * (n - 1) + 2 == 3 * n - 1 && 3 * (n - 1) + 3 == 3 * n;
  }

  /** A field whose path ends in `position` gets three slots per document, as
      `OwnsPosition` says, and no other key. */
  lemma {:induction false} PositionSlots(docs: seq<Doc>, name: string)
    requires LastSegment(name) == "position"
    requires PositionsParse(docs, name)
    ensures var t := FieldTable(docs, name);
      && (forall k :: k in t ==> 1 <= k <= 3 * |docs|)
      && forall d :: 0 <= d < |docs| ==> OwnsPosition(t, docs[d], name, d)
  {
    if |docs| > 0 {
      var n := |docs|;
      var init, last := docs[..n - 1], docs[n - 1];
      PositionsParsePrefix(docs, name, n - 1);
      PositionSlots(init, name);
      var t0 := FieldTable(init, name);
      var t := FieldTable(docs, name);
      assert t == WriteField(t0, name, last, n);
      PositionStep(t0, name, last, n);
      forall d | 0 <= d < n - 1
        ensures OwnsPosition(t, docs[d], name, d)
      {
        assert init[d] == docs[d];
        OwnsPositionFrame(t0, t, docs[d], name, d);
      }
    }
  }

  /** The position text walk of engine_plugin.cpp:331-332 and 335-336: the
      index just after the first comma at or after `from`. */
  method SkipPastComma(s: string, from: nat) returns (q: nat)
    requires from <= |s| && FirstIndexOf(s[from..], ',').Some?
    ensures q == from + FirstIndexOf(s[from..], ',').value + 1
  {
    q := from;
    var c := FirstIndexOf(s[from..], ',').value;
    while s[q] != ','
      invariant from <= q <= from + c
      invariant ',' !in s[from..q]
      decreases from + c - q
    {
      assert s[from..q + 1] == s[from..q] + [s[q]];
      q := q + 1;
    }
    q := q + 1;
  }

  class Engine {
    var client: Option<string>
    var database: Option<string>
    var collection: Option<string>
    /** Every find sent to the store, in order. */
    var finds: seq<Find>
    /** Every count sent to the store, in order. */
    var counts: seq<Find>
    /** Whether `database` was opened on the current client: a switch of
        server destroys the client and leaves the handle dangling. */
    ghost var databaseLive: bool

    constructor()
      ensures client == None && database == None && collection == None
      ensures finds == [] && counts == [] && !databaseLive
    {
      client := None;
      database := None;
      collection := None;
      finds := [];
      counts := [];
      databaseLive := false;
    }

    /** connect_to_database (engine_plugin.cpp:86-113). */
    method ConnectToDatabase(L: LuaState, uriValid: bool) returns (n: int)
      requires |L.stack| >= 1 ==> !L.stack[0].LNumber?
      modifies this`client, this`databaseLive, L
      ensures |old(L.stack)| < 1 || ToLString(old(L.stack)[0]).None? ==>
                n == 0 && client == old(client) && L.stack == old(L.stack) && databaseLive == old(databaseLive)
      ensures |old(L.stack)| >= 1 && ToLString(old(L.stack)[0]).Some? ==>
                var (c, b) := ConnectStep(old(client), old(L.stack)[0].s, uriValid);
                && n == 1 && client == c && L.stack == old(L.stack) + [LBool(b)]
                && databaseLive == (old(databaseLive) && !SwitchesClient(old(client), old(L.stack)[0].s))
    {
      if |L.stack| < 1 || ToLString(L.stack[0]).None? {
        return 0;
      }
      var address := L.stack[0].s;
      if client.None? {
        client := if uriValid then Some(address) else None;
        L.PushBoolean(true);
      } else if client.value != address {
        client := if uriValid then Some(address) else None;
        databaseLive := false;
        L.PushBoolean(true);
      } else {
        L.PushBoolean(false);
      }
      n := 1;
    }

    /** select_database (engine_plugin.cpp:115-145). */
    method SelectDatabase(L: LuaState) returns (n: int)
      requires |L.stack| >= 1 ==> !L.stack[0].LNumber?
      modifies this`database, this`databaseLive, L
      ensures |old(L.stack)| < 1 || ToLString(old(L.stack)[0]).None? ==>
                n == 0 && database == old(database) && L.stack == old(L.stack) && databaseLive == old(databaseLive)
      ensures |old(L.stack)| >= 1 && ToLString(old(L.stack)[0]).Some? ==>
                var (d, b) := SelectStep(client, old(database), old(L.stack)[0].s);
                && n == 1 && database == d && L.stack == old(L.stack) + [LBool(b)]
                && databaseLive == (old(databaseLive) || OpensHandle(client, old(database), old(L.stack)[0].s))
    {
      if |L.stack| < 1 || ToLString(L.stack[0]).None? {
        return 0;
      }
      var name := L.stack[0].s;
      if client.None? {
        L.PushBoolean(false);
      } else if database.None? {
        database := Some(name);
        databaseLive := true;
        L.PushBoolean(true);
      } else if database.value != name {
        database := Some(name);
        databaseLive := true;
        L.PushBoolean(true);
      } else {
        L.PushBoolean(false);
      }
      n := 1;
    }

    /** fetch_field_data (engine_plugin.cpp:235-365). `fieldNames` and
        `sessions` are what the walks over argument tables 2 and 4 read,
        `nObjects` is the count the store answers and `docs` what the cursor
        yields. The result count is the number of tables left on the stack. */
    method FetchFieldData(L: LuaState, fieldNames: seq<string>, sessions: seq<Option<string>>,
                          nObjects: int, docs: seq<Doc>) returns (n: int)
      requires |L.stack| >= 1 ==> !L.stack[0].LNumber?
      requires |L.stack| >= 1 && L.stack[0].LString? ==>
                 database.Some? && databaseLive && FetchCallable(L.stack, fieldNames, sessions, docs)
      modifies this`collection, this`finds, this`counts, L
      ensures |old(L.stack)| < 1 || !old(L.stack)[0].LString? ==>
                && n == 0 && L.stack == old(L.stack) && collection == old(collection)
                && finds == old(finds) && counts == old(counts)
      ensures |old(L.stack)| >= 1 && old(L.stack)[0].LString? ==>
                var request := Find(old(L.stack)[0].s, SessionFilter(sessions),
                                    EngineOpts(ToLNumber(old(L.stack)[2]), fieldNames));
                && n == |fieldNames|
                && collection == Some(old(L.stack)[0].s)
                && counts == old(counts) + [request]
                && finds == old(finds) + [request]
                && L.stack == old(L.stack) + FilledTables(fieldNames, nObjects, docs)
    {
      if |L.stack| < 1 || ToLString(L.stack[0]).None? {
        return 0;
      }
      var coll := L.stack[0].s;
      collection := Some(coll);
      var fields, filter, opts := BuildFetchRequest(fieldNames, sessions, ToLNumber(L.stack[2]));
      counts := counts + [Find(coll, filter, opts)];
      PushFieldTables(L, fields, fieldNames, nObjects, docs);
      finds := finds + [Find(coll, filter, opts)];
      n := |fieldNames|;
    }
  }

  /** The request fetch_field_data builds (engine_plugin.cpp:247-268): the
      field table from the walk over the names, the session filter, and the
      limit, projection and sort options. */
  method BuildFetchRequest(fieldNames: seq<string>, sessions: seq<Option<string>>, limit: real)
    returns (fields: array<Field>, filter: Doc, opts: Doc)
    requires |fieldNames| < MAX_FIELDS && |sessions| <= 10000 && InU64Range(limit)
    ensures fresh(fields) && fields.Length == MAX_FIELDS
    ensures NamedUpTo(fields[..], |fieldNames|) && SlotNames(fields[..], |fieldNames|) == fieldNames
    ensures filter == SessionFilter(sessions)
    ensures opts == EngineOpts(limit, fieldNames)
  {
    fields := NewFieldTable(fieldNames);
    opts := [("limit", BInt64(AsInt64(TruncU64(limit))))];
    filter := FilterDatabaseFetch(sessions);
    opts := FilterProjectField(fields, |fieldNames|, opts);
    opts := SortByTick(opts);
  }

  /** create_lua_tables followed by the cursor loop of fetch_field_data
      (engine_plugin.cpp:216-233, 278-355): one table per named field is
      pushed, then filled from the documents. */
  method PushFieldTables(L: LuaState, fields: array<Field>, names: seq<string>, nObjects: int, docs: seq<Doc>)
    requires NamedUpTo(fields[..], |names|) && SlotNames(fields[..], |names|) == names
    requires |L.stack| + |names| < 256
    requires forall k :: 0 <= k < |names| ==> PositionsParse(docs, names[k])
    modifies L, fields
    ensures L.stack == old(L.stack) + FilledTables(names, nObjects, docs)
  {
    ghost var stack0 := L.stack;
    CreateLuaTables(L, fields, |names|, nObjects);
    FillTables(L, fields, names, nObjects, docs, |stack0|);
    FilledStack(L.stack, stack0, names, nObjects, docs);
  }

  /** Tables filled from `base` on a stack of the right height are the
      arguments followed by `FilledTables`. */
  lemma FilledStack(stack: seq<LuaValue>, stack0: seq<LuaValue>, names: seq<string>, nObjects: int, docs: seq<Doc>)
    requires |stack| == |stack0| + |names| && stack[..|stack0|] == stack0[..|stack0|]
    requires TablesFilled(stack, |stack0|, names, nObjects, docs, 0, |names|)
    ensures stack == stack0 + FilledTables(names, nObjects, docs)
  {
    var r := stack0 + FilledTables(names, nObjects, docs);
    forall i | 0 <= i < |stack|
      ensures stack[i] == r[i]
    {
      if i < |stack0| {
        assert stack[i] == stack[..|stack0|][i];
      }
    }
  }

  /** The field walk of fetch_field_data (engine_plugin.cpp:247-259): a fresh
      field table whose first slots take the names in walk order. */
  method NewFieldTable(fieldNames: seq<string>) returns (fields: array<Field>)
    requires |fieldNames| < MAX_FIELDS
    ensures fresh(fields) && fields.Length == MAX_FIELDS
    ensures NamedUpTo(fields[..], |fieldNames|) && SlotNames(fields[..], |fieldNames|) == fieldNames
    ensures forall k :: 0 <= k < |fieldNames| ==> fields[k] == Field(Some(fieldNames[k]), 255)
  {
    fields := new Field[MAX_FIELDS](_ => UnsetField);
    var nFields := 0;
    while nFields < |fieldNames|
      invariant 0 <= nFields <= |fieldNames|
      invariant forall k :: 0 <= k < nFields ==> fields[k] == Field(Some(fieldNames[k]), 255)
      invariant forall k :: nFields <= k < fields.Length ==> fields[k] == UnsetField
    {
      fields[nFields] := fields[nFields].(name := Some(fieldNames[nFields]));
      nFields := nFields + 1;
    }
    assert fields[..][|fieldNames|] == UnsetField;
    assert SlotNames(fields[..], nFields) == fieldNames;
  }

  /** filter_database_fetch (engine_plugin.cpp:148-186): `sessions` is the
      text of each value the walk over the sessions table visits. */
  method FilterDatabaseFetch(sessions: seq<Option<string>>) returns (filter: Doc)
    requires |sessions| <= 10000
    ensures filter == SessionFilter(sessions)
  {
    var orOperand: Doc := [];
    var ind := 0;
    while ind < |sessions|
      invariant 0 <= ind <= |sessions|
      invariant orOperand == SessionClauses(sessions[..ind])
    {
      orOperand := orOperand + [(DecimalString(ind), BDocument([("session_id", Utf8OrNull(sessions[ind]))]))];
      ind := ind + 1;
    }
    assert sessions[..|sessions|] == sessions;
    filter := [("params.position", BDocument([("$exists", BBool(true))])), ("$or", BArray(orOperand))];
  }

  /** filter_project_field (engine_plugin.cpp:188-204): the projection stops
      at the first unnamed slot. */
  method FilterProjectField(fields: array<Field>, n: nat, opts: Doc) returns (r: Doc)
    requires NamedUpTo(fields[..], n)
    ensures r == opts + [("projection", BDocument(Projection(SlotNames(fields[..], n))))]
  {
    ghost var names := SlotNames(fields[..], n);
    var projection: Doc := [("_id", BBool(false))];
    var ind := 0;
    while fields[ind].name.Some?
      invariant 0 <= ind <= n
      invariant projection == Projection(names[..ind])
      decreases n - ind
    {
      assert fields[..][ind] == fields[ind];
      projection := projection + [(fields[ind].name.value, BBool(true))];
      ind := ind + 1;
    }
    assert names[..ind] == names;
    r := opts + [("projection", BDocument(projection))];
  }

  /** The empty tables `create_lua_tables` pushes, one per name. */
  function NewTables(names: seq<string>, nObjects: int): (r: seq<LuaValue>)
    ensures |r| == |names|
    ensures forall k :: 0 <= k < |names| ==> r[k] == LTable(Hint(names[k], nObjects), map[])
  {
    if |names| == 0 then []
    else NewTables(names[..|names| - 1], nObjects) + [LTable(Hint(names[|names| - 1], nObjects), map[])]
  }

  /** The table part of create_lua_tables (engine_plugin.cpp:216-233): one new
      table per named field, whose stack index goes into the field's `ind`. */
  method CreateLuaTables(L: LuaState, fields: array<Field>, n: nat, nObjects: int)
    requires NamedUpTo(fields[..], n)
    requires |L.stack| + n < 256
    modifies L, fields
    ensures L.stack == old(L.stack) + NewTables(SlotNames(old(fields[..]), n), nObjects)
    ensures forall k :: 0 <= k < n ==> fields[k] == old(fields[k]).(ind := |old(L.stack)| + k + 1)
    ensures forall k :: n <= k < fields.Length ==> fields[k] == old(fields[k])
  {
    ghost var names := SlotNames(fields[..], n);
    ghost var base := L.stack;
    var ind := 0;
    while fields[ind].name.Some?
      invariant 0 <= ind <= n
      invariant |L.stack| == |base| + ind && L.stack[..|base|] == base
      invariant forall k :: 0 <= k < ind ==> L.stack[|base| + k] == LTable(Hint(names[k], nObjects), map[])
      invariant forall k :: 0 <= k < ind ==> fields[k] == old(fields[k]).(ind := |base| + k + 1)
      invariant forall k :: ind <= k < fields.Length ==> fields[k] == old(fields[k])
      decreases n - ind
    {
      PushFieldTable(L, fields[ind].name.value, nObjects);
      fields[ind] := fields[ind].(ind := |L.stack| % 256);
      ind := ind + 1;
    }
    assert L.stack == base + NewTables(names, nObjects);
  }

  /** One table of create_lua_tables (engine_plugin.cpp:225-228), with its
      size hint. */
  method PushFieldTable(L: LuaState, name: string, nObjects: int)
    modifies L
    ensures L.stack == old(L.stack) + [LTable(Hint(name, nObjects), map[])]
  {
    if name == "params.position" {
      L.CreateTable(nObjects);
    } else {
      L.CreateTable(3 * nObjects);
    }
  }

  /** The text walk of the position branch (engine_plugin.cpp:326-336): skip
      `Vector3(`, take x from there, walk past a comma, take y, walk past the
      next comma, take z. */
  method SplitVector3(s: string) returns (x: string, y: string, z: string)
    requires IsVector3Text(s)
    ensures (x, y, z) == Vector3Parts(s)
  {
    var p := 8;
    x := s[p..];
    ghost var c1 := FirstIndexOf(s[8..], ',').value;
    p := SkipPastComma(s, p);
    y := s[p..];
    ghost var c2 := FirstIndexOf(y, ',').value;
    p := SkipPastComma(s, p);
    z := s[p..];
    assert y == s[9 + c1..] && z == y[c2 + 1..];
  }

  /** The stores of the position branch (engine_plugin.cpp:338-345): x, y and
      z at 3objN-2, 3objN-1 and 3objN. */
  method WritePosition(L: LuaState, index: int, s: string, objN: int)
    requires 1 <= index <= |L.stack| && L.stack[index - 1].LTable?
    requires IsVector3Text(s)
    modifies L
    ensures var t := old(L.stack)[index - 1];
            var parts := Vector3Parts(s);
            L.stack == old(L.stack)[index - 1 := LTable(t.hint,
              SetSlot(SetSlot(SetSlot(t.entries, objN * 3 - 2, LAtof(parts.0)), objN * 3 + 1 - 2, LAtof(parts.1)),
                      objN * 3 + 2 - 2, LAtof(parts.2)))]
  {
    var x, y, z := SplitVector3(s);
    L.RawSetI(index, objN * 3 - 2, LAtof(x));
    L.RawSetI(index, objN * 3 + 1 - 2, LAtof(y));
    L.RawSetI(index, objN * 3 + 2 - 2, LAtof(z));
  }

  /** The work for one document and one field (engine_plugin.cpp:284-349):
      find the field, then store its scalar or its position. */
  method WriteFieldInto(L: LuaState, index: int, name: string, doc: Doc, objN: int)
    requires 1 <= index <= |L.stack| && L.stack[index - 1].LTable?
    requires PositionsParse([doc], name)
    modifies L
    ensures L.stack == old(L.stack)[index - 1 := LTable(old(L.stack)[index - 1].hint,
                                                       WriteField(old(L.stack)[index - 1].entries, name, doc, objN))]
  {
    var found := FindDescendant(doc, name);
    if found.None? {
      assert old(L.stack)[index - 1 := old(L.stack)[index - 1]] == old(L.stack);
      return;
    }
    var key, value := found.value.0, found.value.1;
    if key != "position" {
      L.RawSetI(index, objN, Slot(value));
    } else {
      assert [doc][0] == doc;
      WritePosition(L, index, value.s, objN);
    }
  }

  /** The tables of the fields sit on the stack from `base`, table k at stack
      index base + k + 1, each filled from the documents `docs`. */
  ghost predicate TablesFilled(stack: seq<LuaValue>, base: nat, names: seq<string>, nObjects: int,
                               docs: seq<Doc>, lo: nat, hi: nat)
    requires base + |names| <= |stack| && lo <= hi <= |names|
  {
    forall k :: lo <= k < hi ==> stack[base + k] == LTable(Hint(names[k], nObjects), FieldTable(docs, names[k]))
  }

  /** One turn of the cursor loop of fetch_field_data (engine_plugin.cpp:
      284-349): document d, object number d+1, writes every requested field
      into that field's table. */
  method FillDocument(L: LuaState, fields: array<Field>, names: seq<string>, nObjects: int, docs: seq<Doc>,
                      d: nat, ghost base: nat)
    requires d < |docs| && |names| <= fields.Length
    requires |L.stack| == base + |names|
    requires forall k :: 0 <= k < |names| ==> fields[k].name == Some(names[k]) && fields[k].ind == base + k + 1
    requires forall k :: 0 <= k < |names| ==> PositionsParse(docs, names[k])
    requires TablesFilled(L.stack, base, names, nObjects, docs[..d], 0, |names|)
    modifies L
    ensures |L.stack| == base + |names| && L.stack[..base] == old(L.stack)[..base]
    ensures TablesFilled(L.stack, base, names, nObjects, docs[..d + 1], 0, |names|)
  {
    assert docs[..d + 1][..d] == docs[..d];
    var f := 0;
    while f < |names|
      invariant 0 <= f <= |names|
      invariant |L.stack| == base + |names| && L.stack[..base] == old(L.stack)[..base]
      invariant TablesFilled(L.stack, base, names, nObjects, docs[..d + 1], 0, f)
      invariant TablesFilled(L.stack, base, names, nObjects, docs[..d], f, |names|)
    {
      FillField(L, fields[f].ind, names[f], nObjects, docs, d);
      f := f + 1;
    }
  }

  /** Document d's write into the table of one field, which holds the first
      d documents' values before and the first d+1 after. */
  method FillField(L: LuaState, index: int, name: string, nObjects: int, docs: seq<Doc>, d: nat)
    requires d < |docs| && PositionsParse(docs, name)
    requires 1 <= index <= |L.stack| && L.stack[index - 1] == LTable(Hint(name, nObjects), FieldTable(docs[..d], name))
    modifies L
    ensures L.stack == old(L.stack)[index - 1 := LTable(Hint(name, nObjects), FieldTable(docs[..d + 1], name))]
  {
    PositionsParsePrefix(docs, name, d);
    FieldTableStep(docs, name, d);
    WriteFieldInto(L, index, name, docs[d], d + 1);
  }

  /** The table after d+1 documents is the one after d, written by document d. */
  lemma FieldTableStep(docs: seq<Doc>, name: string, d: nat)
    requires d < |docs|
    ensures FieldTable(docs[..d + 1], name) == WriteField(FieldTable(docs[..d], name), name, docs[d], d + 1)
  {
    assert docs[..d + 1][..d] == docs[..d];
  }

  /** The cursor loop of fetch_field_data (engine_plugin.cpp:278-355). */
  method FillTables(L: LuaState, fields: array<Field>, names: seq<string>, nObjects: int, docs: seq<Doc>,
                    ghost base: nat)
    requires |names| <= fields.Length
    requires |L.stack| == base + |names|
    requires forall k :: 0 <= k < |names| ==> fields[k].name == Some(names[k]) && fields[k].ind == base + k + 1
    requires forall k :: 0 <= k < |names| ==> L.stack[base + k] == LTable(Hint(names[k], nObjects), map[])
    requires forall k :: 0 <= k < |names| ==> PositionsParse(docs, names[k])
    modifies L
    ensures |L.stack| == base + |names| && L.stack[..base] == old(L.stack)[..base]
    ensures TablesFilled(L.stack, base, names, nObjects, docs, 0, |names|)
  {
    var objN := 1;
    var d := 0;
    while d < |docs|
      invariant 0 <= d <= |docs| && objN == d + 1
      invariant |L.stack| == base + |names| && L.stack[..base] == old(L.stack)[..base]
      invariant TablesFilled(L.stack, base, names, nObjects, docs[..d], 0, |names|)
    {
      FillDocument(L, fields, names, nObjects, docs, d, base);
      objN := objN + 1;
      d := d + 1;
    }
    assert docs[..d] == docs;
  }

  /** What fetch_field_data leaves on the stack above its arguments: one table
      per requested field, filled from the documents. */
  function FilledTables(names: seq<string>, nObjects: int, docs: seq<Doc>): (r: seq<LuaValue>)
    ensures |r| == |names|
  {
    seq(|names|, k requires 0 <= k < |names| => LTable(Hint(names[k], nObjects), FieldTable(docs, names[k])))
  }

  /** What fetch_field_data needs of a call whose collection name is a
      string: the four arguments, a limit that converts to uint64_t, fewer
      field names than the field table holds, stack indices that fit a
      uint8_t, session keys that fit the index buffer, and positions the
      parser can walk. */
  predicate FetchCallable(stack: seq<LuaValue>, fieldNames: seq<string>, sessions: seq<Option<string>>, docs: seq<Doc>)
  {
    && |stack| >= 4
    && !stack[2].LString? && !stack[2].LAtof? && InU64Range(ToLNumber(stack[2]))
    && |fieldNames| < MAX_FIELDS
    && |stack| + |fieldNames| < 256
    && |sessions| <= 10000
    && forall k :: 0 <= k < |fieldNames| ==> PositionsParse(docs, fieldNames[k])
  }
}
