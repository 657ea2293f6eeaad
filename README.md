# Telemetry visualizer: the database path

This project models how the telemetry visualizer moves data from a document
store into the engine. There are three parts:

- The **telemetry viewer** (`plugin/telemetry-viewer.js`) is the editor-side
  panel. It connects to a MongoDB server and selects a database. It also
  selects a collection, builds the "Fields to include" catalog, fetches
  documents (after the session ids of a level under the POSITION parser) and
  shows them as rows. Finally, it raises a `visualize_point_cloud` event in
  the engine viewport.
- The **editor plugin** (`editor/editor_plugin.cpp`) is the native extension
  the viewer calls through `nativeExtension`. It provides `connectToDatabase`,
  `selectDatabase`, `fetchFieldKeys`, `fetchDocuments` and `sessionsIds`.
- The **engine plugin** (`engine/engine_plugin.cpp`) holds the Lua functions
  the viewport script calls: connecting, selecting a database, and
  `fetch_field_data`, which fills one Lua table per requested field. It also
  holds the resource compiler, which prefixes a resource with its length.

## Modules

| file | module | what it holds |
|---|---|---|
| `common.dfy` | `Common` | `Option`, the positions of the true flags of a sequence, and decimal text (`sprintf("%d")`). |
| `values.dfy` | `Values` | The values that cross the JavaScript/native boundary: JavaScript truthiness, property access, indexing and `== false`. |
| `bson.dfy` | `Bson` | BSON documents, `bson_iter_find_descendant`, the 64-bit conversions of limit and skip, and the session filter and projection documents both plugins send. |
| `editor_query.dfy` | `EditorQuery` | The pure parts of the editor plugin: argument parsing, the sort/projection/filter documents, BSON-to-ConfigValue conversion into columns, and field-key flattening. |
| `editor_plugin.dfy` | `EditorPlugin` | The editor plugin's globals (client, database, collection) as the class `Plugin`, with its five native functions. |
| `engine_plugin.dfy` | `EnginePlugin` | The Lua stack as the class `LuaState`. The engine plugin's globals as the class `Engine`, with `connect_to_database`, `select_database` and `fetch_field_data`. Also the field table as an `array<Field>`. |
| `resource_compiler.dfy` | `ResourceCompiler` | `pack_source_data_with_size` over arrays, `my_resource_compiler`, and the unpacking that inverts them. |
| `viewer.dfy` | `TelemetryViewer` | The viewer as the class `Viewer` and the point-cloud options as the class `PointCloud`. Each native answer is a method parameter. Native calls and viewport events are logged. A handler that throws ends with `Threw(error)`. |
| `pipeline.dfy` | `Pipeline` | How the three meet: what the fetch button sends is what the editor parses, and what the editor answers is what the viewer projects into rows. |

## Behaviour the model keeps as the code has it

- **The parser modes are swapped.** `setMode(POSITION)` selects VECTOR3 and
  `setMode(VECTOR3)` selects POSITION (`plugin/telemetry-viewer.js:101-132`).
  The viewer starts in VECTOR3 (line 53). Choosing a visualization also
  overwrites the parser mode (lines 362-376). POINTCLOUD and VECTOR3 are both
  1, so choosing the point cloud selects VECTOR3.
- **`selectCollectionModel` always throws once it has work to do.** It reads
  `id` at line 215, which is declared nowhere, so it ends in a
  ReferenceError. This happens after the collection is selected and the
  catalog is rebuilt.
- **The fetch button swaps limit and skip.** It passes `{limit}` and
  `{skip}` to `fetchDocuments(collection, limit, skip, ...)` (line 231),
  which forwards them as `(collection, skip, limit, ...)`. The editor reads
  both by key, so the request is still right (`Pipeline.ButtonArgsParse`).
- **The editor's `init_server` answers nil when switching servers.** It
  answers nil, not true, when it replaces an existing client with another
  one (`editor/editor_plugin.cpp:500-535`). The viewer therefore treats a
  successful switch as a failure. The engine's `connect_to_database`
  answers true for the same switch.
- **Loose equality on the database answer.** `selectDatabase` tests
  `collectionNames == false`. So a database with a single collection whose
  name reads as zero is refused, and a database without collections (nil)
  is taken as the collection list. Without a database name the answer is
  undefined, which is not loosely equal to false. A name reads as zero when,
  after trimming ECMAScript white space and line terminators, it is empty,
  a decimal literal with only zero digits (with an optional sign, point and
  exponent, as `-0.`, `0e0` or `00.0E-5`), or an unsigned hexadecimal,
  octal or binary literal with only zero digits (as `0x0`).
- **`create_lua_tables` inverts the size hints.** `params.position` gets the
  object count as its array-size hint, and every other field gets three
  times that count (`engine/engine_plugin.cpp:216-233`). A position table is
  the one that holds three slots per object. Only the hint is affected, not
  the table contents.

## Model

| member | source | states |
|---|---|---|
| Bson.FirstIndexOf | engine/engine_plugin.cpp:331-336 | The position found holds the character and no earlier position does; None means the character does not occur. |
| Bson.FindKey | editor/editor_plugin.cpp:300 | The element found has the key and no earlier element has it; None means no element has it. |
| Bson.FoundKeyIsLastSegment | engine/engine_plugin.cpp:288-295 | The element `bson_iter_find_descendant` finds carries the last segment of the dotted path as its key, so the engine's `key == "position"` test is a test on the requested path. |
| Bson.PlainPathIsTopLevel | editor/editor_plugin.cpp:300 | A non-empty path without dots is found exactly when some top-level element has that key, and the element found has that key. The empty path finds nothing, even under an empty key. |
| Bson.TrailingDotFindsNothing | editor/editor_plugin.cpp:300 | A path ending in a dot, such as the `a.` listed for a child keyed by the empty string, finds nothing at any depth. |
| Bson.TruncU64 | editor/editor_plugin.cpp:227-228 | The `(uint64_t)` conversion of a double gives a number below 2^64. |
| Bson.AsInt64 | editor/editor_plugin.cpp:227-228 | `BSON_APPEND_INT64` of a uint64_t gives a signed 64-bit value, which equals the input below 2^63. |
| Bson.SessionClauseKeys | editor/editor_plugin.cpp:236-264 | The `$or` keys fit the 5-byte `char_ind` buffer exactly when there are at most 10000 sessions, and no two clauses share a key. |
| EditorQuery.Pushed | editor/editor_plugin.cpp:288-290 | A value made from nullptr and pushed to is nil until the first push, then the array of what was pushed. |
| EditorQuery.ToStrings | editor/editor_plugin.cpp:172-183 | One `to_string` result per array item. |
| EditorQuery.ToBools | editor/editor_plugin.cpp:184-195 | One `to_bool` result per array item. |
| EditorQuery.ParseFetchArgs | editor/editor_plugin.cpp:145-208 | The argument loop of `fetch_documents` gives exactly the parameters `Parsed` defines. |
| EditorQuery.LastAccepted | editor/editor_plugin.cpp:145-208 | The position found lies in the argument range and is taken for the key. |
| EditorQuery.LastAcceptedIsLast | editor/editor_plugin.cpp:145-208 | No later argument is taken for the key, and None means no argument is taken for it. |
| EditorQuery.ParsedIsLastAccepted | editor/editor_plugin.cpp:145-208 | Each parameter comes from the last argument taken for its key and keeps its initial state when none is; objects with another first key, values of the wrong type and non-objects are ignored. |
| EditorQuery.ParsedSpinners | editor/editor_plugin.cpp:145-171 | The limit and the skip each come from the last argument whose first key names them with a number, and stay unset when there is none. |
| EditorQuery.ParsedLists | editor/editor_plugin.cpp:145-210 | The fields, the sort flags and the position of the session list each come from the last argument that is taken for their key, and keep their initial state when there is none. |
| EditorQuery.SortDocSelectsFlagged | editor/editor_plugin.cpp:272-278 | The sort document lists exactly the fields whose sort flag is set, each with order 1, in index order. |
| EditorQuery.BuildSortDoc | editor/editor_plugin.cpp:272-278 | The sort loop builds the sort document. |
| EditorQuery.BuildProjection | editor/editor_plugin.cpp:280-286 | The projection excludes `_id` first, then includes every requested field in request order. |
| EditorQuery.BuildSessionFilter | editor/editor_plugin.cpp:231-270 | The filter requires `params.position` to exist, then holds one `{session_id}` clause per session under the `$or` key. |
| EditorQuery.FieldNames | editor/editor_plugin.cpp:172-183 | One name per requested field. |
| EditorQuery.ToConfigValue | editor/editor_plugin.cpp:306-342 | Numeric BSON types (double, int32, int64, date-time, timestamp) become numbers, strings stay strings, booleans stay booleans, and every other type becomes nil; the string, boolean, int32 and timestamp values are kept. |
| EditorQuery.Presence | editor/editor_plugin.cpp:300 | One presence flag per document. |
| EditorQuery.ColumnIsPresentValues | editor/editor_plugin.cpp:294-344 | A column holds one converted value per document that has the field, in cursor order, and nothing for the other documents. |
| EditorQuery.ColumnLength | editor/editor_plugin.cpp:294-344 | A column is never longer than the document list, and is as long exactly when every document has the field. |
| EditorQuery.CollectColumns | editor/editor_plugin.cpp:294-344 | The cursor loop gives one column per requested field, each equal to that field's column over the documents. |
| EditorQuery.PushDocument | editor/editor_plugin.cpp:296-343 | One document appends to each field's column the converted value of that field, when the document has it. |
| EditorQuery.DocumentsResult | editor/editor_plugin.cpp:346-349 | The answer is nil when no field is requested, otherwise an object with one entry per requested field. |
| EditorQuery.FlattenKeysMembership | editor/editor_plugin.cpp:429-459 | A key is listed exactly when it is a top-level non-container key, or a container's key joined by a dot to one of its children's keys; flattening goes one level deep. |
| EditorQuery.EntryKeysMembership | editor/editor_plugin.cpp:429-452 | One entry lists exactly its own key when it is not a container, and exactly its key joined by a dot to each child key when it is. |
| EditorQuery.FlattenKeysEntries | editor/editor_plugin.cpp:429-459 | A key is listed for a document exactly when some entry of the document lists it. |
| EditorQuery.OneLevelOnly | editor/editor_plugin.cpp:429-452 | For every document, the listed keys stay the same when every child's value is replaced by null. A child that is itself a document or an array therefore yields its own path and nothing deeper. |
| EditorQuery.ChildKeys | editor/editor_plugin.cpp:438-448 | The inner loop lists `key.child` for each child of a container, in order. |
| EditorQuery.FlattenDocKeys | editor/editor_plugin.cpp:429-459 | The element loop gives the flattened keys of a document. |
| EditorQuery.CollectFieldKeys | editor/editor_plugin.cpp:420-461 | The cursor loop concatenates the flattened keys of each document. |
| EditorQuery.CollectSessionIds | editor/editor_plugin.cpp:96-113 | The session ids are the `session_id` column of the documents. |
| EditorQuery.SessionIdsAreStringValues | editor/editor_plugin.cpp:96-113 | Every collected session id is a string. |
| EditorPlugin.ServerResults | editor/editor_plugin.cpp:500-535 | Only a first connection answers true; asking for the server already connected answers false; switching to another server replaces the client and answers nil. |
| EditorPlugin.StaleDatabaseKept | editor/editor_plugin.cpp:520-524 | After a switch of server, selecting the old database by its name answers false and does not reopen it, so the handle stays on the destroyed client. |
| EditorPlugin.ServerIdempotent | editor/editor_plugin.cpp:500-535 | A second identical connection answers false and keeps the client. |
| EditorPlugin.NamesValue | editor/editor_plugin.cpp:474-494 | The collection names are pushed in order; the value is nil when listing fails or there are no collections. |
| EditorPlugin.DatabaseResults | editor/editor_plugin.cpp:541-586 | Selecting by name answers false and keeps the selection exactly when there is no client or the database is already selected; otherwise it selects the database and answers its collection names. |
| EditorPlugin.FieldKeyOpts | editor/editor_plugin.cpp:406-413 | The key query takes one document and skips 6 for `tech_performance`. |
| EditorPlugin.Plugin.constructor | editor/editor_plugin.cpp:18-20 | The client, database and collection start null, and no query has been sent. |
| EditorPlugin.Plugin.InitServer | editor/editor_plugin.cpp:500-535 | The new client and the answer are the `ServerStep` of the old client and the arguments. A switch of server leaves the selected database handle on the destroyed client (`databaseLive` becomes false). |
| EditorPlugin.Plugin.InitDatabase | editor/editor_plugin.cpp:541-586 | The new database and the answer are the `DatabaseStep` of the old state and the arguments. The handle is on the current client exactly when it was before or a new one is opened. |
| EditorPlugin.Plugin.FetchSessionsIds | editor/editor_plugin.cpp:59-121 | Without arguments it answers null and changes nothing. Otherwise it opens `session_start`, sends the level-key query (limit 3000, projected to `session_id`) and answers the session-id column. |
| EditorPlugin.Plugin.FetchDocuments | editor/editor_plugin.cpp:126-356 | Without a string collection name it answers null and changes nothing. Otherwise it opens that collection, sends one find with the parsed filter and options, and answers one column per requested field. |
| EditorPlugin.Plugin.FetchFieldKeys | editor/editor_plugin.cpp:361-469 | A nil argument answers nil and any other non-string answers null, both without change. A name opens that collection, sends the one-document key query and answers the flattened keys. |
| EnginePlugin.LuaState.constructor | engine/engine_plugin.cpp:86-88 | The stack holds the call's arguments. |
| EnginePlugin.LuaState.PushBoolean | engine/engine_plugin.cpp:97 | One boolean is pushed. |
| EnginePlugin.LuaState.CreateTable | engine/engine_plugin.cpp:225-228 | An empty table with the given hint is pushed. |
| EnginePlugin.LuaState.RawSetI | engine/engine_plugin.cpp:300-301 | The value is stored under the key of the table at the index (a nil deletes the key), and the rest of the stack is unchanged. |
| EnginePlugin.SetSlot | engine/engine_plugin.cpp:300-321 | A raw set stores the value under its key, deletes the key for nil, and leaves every other key alone. |
| EnginePlugin.SetSlotValue | engine/engine_plugin.cpp:300-321 | A raw set of a non-nil value is a plain update of that one key. |
| EnginePlugin.ConnectResults | engine/engine_plugin.cpp:86-113 | Connecting answers false exactly when asked for the server already connected; afterwards that server is connected, and a second identical call answers false. |
| EnginePlugin.SelectResults | engine/engine_plugin.cpp:115-145 | Selecting answers true exactly when there is a client and the database is not already selected; the database is then selected, otherwise kept. |
| EnginePlugin.StaleHandleKept | engine/engine_plugin.cpp:99-105 | After a switch of server, selecting the old database by its name reports false and does not reopen it, so the handle stays on the destroyed client. |
| EnginePlugin.SlotNames | engine/engine_plugin.cpp:247-259 | The names of the first n slots of the field table, in walk order. |
| EnginePlugin.Vector3Parts | engine/engine_plugin.cpp:327-336 | x is read after the eight characters of `Vector3(`, y just after the first comma and z just after the next comma. |
| EnginePlugin.Slot | engine/engine_plugin.cpp:297-322 | Strings, doubles, int32s and booleans keep their value, and every other type stores nil. |
| EnginePlugin.PositionsParsePrefix | engine/engine_plugin.cpp:278-355 | Well-formed position texts stay well formed in a prefix of the cursor and in each single document. |
| EnginePlugin.ScalarSlots | engine/engine_plugin.cpp:288-322 | For a field whose path does not end in `position`, document d owns key d+1. That key holds its converted value and is absent when the field is missing or converts to nil. No other key is set. |
| EnginePlugin.PositionWrite | engine/engine_plugin.cpp:324-347 | A document with a position writes the x, y and z texts at 3objN-2, 3objN-1 and 3objN and nothing else. |
| EnginePlugin.PositionFoundWrite | engine/engine_plugin.cpp:324-347 | A found `position` element whose text is a walkable Vector3 writes its x, y and z texts at 3objN-2, 3objN-1 and 3objN and nothing else. |
| EnginePlugin.OwnsPositionFrame | engine/engine_plugin.cpp:338-347 | Writes outside keys 3d+1..3d+3 do not disturb document d's position slots. |
| EnginePlugin.PositionStep | engine/engine_plugin.cpp:338-347 | The last document's write keeps every earlier document's position slots and fills its own. |
| EnginePlugin.PositionFoundStep | engine/engine_plugin.cpp:338-347 | Writing a found position for object n keeps every key up to 3(n-1), adds no key above 3n, and fills n's three slots with its coordinates. |
| EnginePlugin.PositionSlots | engine/engine_plugin.cpp:278-355 | For a field whose path ends in `position`, document d owns keys 3d+1..3d+3. They hold its three coordinates when it has the field and are absent otherwise. No other key is set. |
| EnginePlugin.SkipPastComma | engine/engine_plugin.cpp:331-336 | The walk stops just after the first comma from its start. |
| EnginePlugin.Engine.constructor | engine/engine_plugin.cpp:39-41 | The client, database and collection start null, and nothing has been sent. |
| EnginePlugin.Engine.ConnectToDatabase | engine/engine_plugin.cpp:86-113 | A non-string address returns 0 and changes nothing. A string address pushes the `ConnectStep` answer, installs its client and returns 1. A switch of server leaves the database handle on the destroyed client. |
| EnginePlugin.Engine.SelectDatabase | engine/engine_plugin.cpp:115-145 | A non-string name returns 0 and changes nothing. A string name pushes the `SelectStep` answer, records its database and returns 1. The handle is on the current client exactly when it was before or a new one is opened. |
| EnginePlugin.Engine.FetchFieldData | engine/engine_plugin.cpp:235-365 | A non-string collection returns 0 and changes nothing. Otherwise it counts and then finds with the session filter, the limit, the projection of the fields and the tick sort. It leaves one filled table per field on the stack and returns the number of fields. |
| EnginePlugin.BuildFetchRequest | engine/engine_plugin.cpp:247-276 | The field table's first slots name the fields in order. The filter is the session filter. The options are the limit truncated to uint64 and read as int64, the projection of the fields and the sort by tick. |
| EnginePlugin.PushFieldTables | engine/engine_plugin.cpp:276-355 | The stack grows by exactly one filled table per field, in field order, holding that field's values over all documents. |
| EnginePlugin.FilledStack | engine/engine_plugin.cpp:216-233 | A stack of the right height whose tables from `base` are filled is the arguments followed by one filled table per field. |
| EnginePlugin.PushFieldTable | engine/engine_plugin.cpp:225-228 | One empty table is pushed, sized by the hint that `create_lua_tables` gives the field's name. |
| EnginePlugin.NewFieldTable | engine/engine_plugin.cpp:247-259 | A fresh field table of MAX_FIELDS slots whose first slots take the names in walk order. The rest stay unnamed, and every index is 255 (the uint8_t -1). |
| EnginePlugin.FilterDatabaseFetch | engine/engine_plugin.cpp:148-186 | The filter requires `params.position` to exist and holds one `{session_id}` clause per session under the `$or` key. |
| EnginePlugin.FilterProjectField | engine/engine_plugin.cpp:188-204 | The options gain a projection that excludes `_id` and includes each named slot, stopping at the first unnamed one. |
| EnginePlugin.NewTables | engine/engine_plugin.cpp:216-233 | One empty table per name, each with the size hint `create_lua_tables` gives it. |
| EnginePlugin.CreateLuaTables | engine/engine_plugin.cpp:216-233 | One table is pushed per named slot, and each slot records its table's stack index; other slots are unchanged. |
| EnginePlugin.SplitVector3 | engine/engine_plugin.cpp:326-336 | The pointer walk yields the x, y and z texts of `Vector3Parts`. |
| EnginePlugin.WritePosition | engine/engine_plugin.cpp:338-346 | x, y and z are stored at 3objN-2, 3objN-1 and 3objN of the table. |
| EnginePlugin.WriteFieldInto | engine/engine_plugin.cpp:287-347 | One document updates one field's table as `WriteField` says: nothing when the field is missing, its scalar, or its position. |
| EnginePlugin.FillDocument | engine/engine_plugin.cpp:285-348 | After document d every field's table equals its table over the first d+1 documents; the stack below the tables is unchanged. |
| EnginePlugin.FillField | engine/engine_plugin.cpp:287-347 | One field's table that holds the first d documents' values holds the first d+1 documents' values after document d, and no other stack slot changes. |
| EnginePlugin.FieldTableStep | engine/engine_plugin.cpp:278-355 | The table over the first d+1 documents is the table over the first d documents, written by document d with object number d+1. |
| EnginePlugin.FillTables | engine/engine_plugin.cpp:278-355 | After the cursor every field's table equals its table over all documents. |
| EnginePlugin.FilledTables | engine/engine_plugin.cpp:216-233 | One table per requested field. |
| ResourceCompiler.EncodeU32 | engine/engine_plugin.cpp:377 | The length header is four bytes. |
| ResourceCompiler.DecodeU32 | engine/engine_plugin.cpp:377 | Four bytes hold a number below 2^32. |
| ResourceCompiler.DecodeEncode | engine/engine_plugin.cpp:377 | Reading the header back gives the length written. |
| ResourceCompiler.EncodeDecode | engine/engine_plugin.cpp:377 | Every four bytes are the header of the number they hold. |
| ResourceCompiler.Unpack | engine/engine_plugin.cpp:371-380 | What unpacks is four bytes shorter than the data. |
| ResourceCompiler.PackSourceDataWithSize | engine/engine_plugin.cpp:371-380 | A fresh buffer holding the four-byte length followed by the source bytes. |
| ResourceCompiler.MyResourceCompiler | engine/engine_plugin.cpp:385-391 | A failed read is passed on unchanged. Otherwise the result is the packed data, which unpacks to the source. |
| ResourceCompiler.UnpackPack | engine/engine_plugin.cpp:371-380 | Unpacking a packed source gives the source back. |
| ResourceCompiler.PackUnpack | engine/engine_plugin.cpp:371-380 | Whatever unpacks is the packing of what it unpacks to. |
| Values.Get | plugin/telemetry-viewer.js:559 | A property access gives undefined on a non-object or a missing key. |
| Values.Index | plugin/telemetry-viewer.js:202 | An integer index within an array gives that element, and any other number gives undefined. On an object, a string or a non-negative whole number names the property (the number by its decimal text). |
| Values.IndexOf | plugin/telemetry-viewer.js:202 | A number is an index exactly when it is a non-negative integer, and a string exactly when it is that index's decimal text. |
| Values.DecimalValue | plugin/telemetry-viewer.js:202 | The number of a decimal text has that text as its decimal form. |
| Values.Trim | plugin/telemetry-viewer.js:459 | The result is a slice of the text with only white space cut off at either end, and it neither begins nor ends with white space. |
| Values.ArrayLooseEqualsFalse | plugin/telemetry-viewer.js:459 | An empty array is `== false`, an array of two or more elements never is, and a list of empty names is `== false` exactly when it has at most one element. |
| Values.ExponentZeroIsZero | plugin/telemetry-viewer.js:459 | `"0e0"` reads as zero: a zero with an exponent is zero. |
| Values.HexZeroIsZero | plugin/telemetry-viewer.js:459 | `"0x0"` reads as zero. |
| Values.UnicodeSpacesAreTrimmed | plugin/telemetry-viewer.js:459 | A no-break space and a byte order mark around a zero are trimmed, so the text reads as zero. |
| Values.BareExponentIsNotZero | plugin/telemetry-viewer.js:459 | `"0e"` does not read as zero: an exponent needs digits. |
| Values.SignedHexIsNotZero | plugin/telemetry-viewer.js:459 | `"-0x0"` does not read as zero: a radix literal takes no sign. |
| TelemetryViewer.ModeAfterSwaps | plugin/telemetry-viewer.js:101-132 | Choosing one parser selects the other, choosing twice comes back, and only NO_PARSER selects itself. |
| TelemetryViewer.IncludedFlags | plugin/telemetry-viewer.js:490-500 | One include flag per catalog item. |
| TelemetryViewer.ExtractorsAtTrueIndices | plugin/telemetry-viewer.js:490-517 | Element j of the included fields and of the sort flags both come from the j-th included item, so the two lists have equal length and stay aligned. |
| TelemetryViewer.NothingIncluded | plugin/telemetry-viewer.js:490-517 | The extractors give nothing exactly when no item is included, and always give lists of equal length. |
| TelemetryViewer.FreshCatalog | plugin/telemetry-viewer.js:206-212 | One catalog item per field key. |
| TelemetryViewer.FreshCatalogSelectsNothing | plugin/telemetry-viewer.js:206-212 | A freshly built catalog includes no field and sorts no field. |
| TelemetryViewer.KeepFlags | plugin/telemetry-viewer.js:524-536 | One keep flag per row. |
| TelemetryViewer.SelectedValues | plugin/telemetry-viewer.js:524-536 | At most one value per row, and none null or undefined. |
| TelemetryViewer.SelectedValuesAtTrueIndices | plugin/telemetry-viewer.js:524-536 | The values are `item[key]` of the included rows where that is not nullish, one per such row, in row order. |
| TelemetryViewer.PutReads | plugin/telemetry-viewer.js:609 | After `obj[key] = v`, reading key gives v and every other key reads as before. |
| TelemetryViewer.FillRowCell | plugin/telemetry-viewer.js:607-609 | After the first k cells of a row are assigned with distinct keys, each of those keys holds its cell. |
| TelemetryViewer.FillRowKeeps | plugin/telemetry-viewer.js:607-609 | Every property that none of the first k keys names keeps its value from the initial row. |
| TelemetryViewer.ProjectRowCells | plugin/telemetry-viewer.js:605-612 | Row i holds `values[k][i]` under `keys[k]`, which is undefined past that column's end. `id` is i and `isIncluded` is false unless a key overwrites them. |
| TelemetryViewer.MaxLength | plugin/telemetry-viewer.js:587-590 | No column is longer, some column is this long, and no columns give 0. |
| TelemetryViewer.Keys | plugin/telemetry-viewer.js:584 | One key per entry. |
| TelemetryViewer.Columns | plugin/telemetry-viewer.js:585 | One column per entry. |
| TelemetryViewer.ColumnsMaxLength | plugin/telemetry-viewer.js:587-590 | The loop completes exactly when every value is an array (a nil column throws at `.length`), and then gives the longest column's length. |
| TelemetryViewer.ProjectRows | plugin/telemetry-viewer.js:605-612 | Row i of the list is the projection of index i, for every index below the longest column's length. |
| TelemetryViewer.BuildRow | plugin/telemetry-viewer.js:607-609 | The inner loop builds row i. |
| TelemetryViewer.CopyItems | plugin/telemetry-viewer.js:574-575 | The copy of the session list equals the list. |
| TelemetryViewer.FetchDispatch | plugin/telemetry-viewer.js:552-582 | Nothing is called when the checks fail. Outside POSITION the documents are fetched with five arguments. Under POSITION the sessions are fetched first, then the documents with the session list as a sixth argument. The documents are fetched exactly when the checks pass and the sessions step gets through. |
| TelemetryViewer.BoolValues | plugin/telemetry-viewer.js:231-232 | One boolean value per sort flag. |
| TelemetryViewer.PointCloud.constructor | plugin/telemetry-viewer.js:750-770 | No active fields, position and scalar choices 1, no colour scale, and a zero range. |
| TelemetryViewer.PointCloud.SetFields | plugin/telemetry-viewer.js:783-785 | The active fields become the `fields` entry of the argument. |
| TelemetryViewer.PointCloud.PositionKey | plugin/telemetry-viewer.js:771-773 | The field at the chosen position, or undefined when the choice is outside the list. |
| TelemetryViewer.PointCloud.ScalarKey | plugin/telemetry-viewer.js:775-777 | The field at the chosen scalar, or undefined when the choice is outside the list. |
| TelemetryViewer.PointCloud.UseScalarModel | plugin/telemetry-viewer.js:787-804 | A non-nil value sets the colour-scale flag to its truthiness and a nil one keeps it; the flag is answered either way. |
| TelemetryViewer.Viewer.constructor | plugin/telemetry-viewer.js:44-63 | VECTOR3 mode, the default address and empty database name, no collections, no catalog, skip 0 and limit 1000, no rows, and the point cloud chosen. |
| TelemetryViewer.Viewer.SetMode | plugin/telemetry-viewer.js:101-132 | The selected mode is the swapped one. Only the VECTOR3 option opens the level-key panel, with a fresh `level_key`. Whenever POSITION ends up selected, a level key exists. |
| TelemetryViewer.Viewer.ChooseVisualization | plugin/telemetry-viewer.js:362-376 | The choice becomes both the visualization and the parser mode; choosing the point cloud selects VECTOR3. |
| TelemetryViewer.Viewer.Connect | plugin/telemetry-viewer.js:422-443 | With an address and a port it calls `connectToDatabase` with `mongodb://ip:port`. Only a truthy answer raises `connect_to_database` and records the address; otherwise nothing changes. |
| TelemetryViewer.Viewer.SelectDatabase | plugin/telemetry-viewer.js:451-472 | With a name it calls `selectDatabase`. An answer loosely equal to false changes nothing. Any other answer (undefined without a name) becomes the collection list, enables fetching and raises `select_database`. |
| TelemetryViewer.Viewer.SelectCollection | plugin/telemetry-viewer.js:198-224 | A null/"null"/"undefined" choice does nothing, and nullish collections throw a TypeError. Otherwise it selects the collection, asks for its field keys and resets the catalog to one unticked item per key. It then throws a ReferenceError, or a TypeError when the keys are not an array. |
| TelemetryViewer.Viewer.GetIsIncludedFields | plugin/telemetry-viewer.js:490-500 | The fields of the included catalog items, in order. |
| TelemetryViewer.Viewer.GetSortFields | plugin/telemetry-viewer.js:507-517 | The sort flags of the included catalog items, in order. |
| TelemetryViewer.Viewer.GetSelectedDataFields | plugin/telemetry-viewer.js:524-536 | The selected values of the listed rows for the key. |
| TelemetryViewer.Viewer.FetchSessions | plugin/telemetry-viewer.js:543-545 | Without a level key it throws a TypeError. Otherwise it calls `sessionsIds` with the level key and answers what the extension answers. |
| TelemetryViewer.Viewer.FetchDocuments | plugin/telemetry-viewer.js:552-646 | The calls made are `FetchCalls`, and no collection or no field returns quietly. A failed session step, a non-object answer or a nil column throws a TypeError and leaves the list unchanged. Otherwise the rows are the projected rows, the columns are `isIncluded` plus the keys, and the point cloud gets the fields and is enabled. |
| TelemetryViewer.Viewer.DispatchFetch | plugin/telemetry-viewer.js:566-582 | The calls made are `FetchCalls`. It returns normally exactly when the sessions step gets through, and throws a TypeError otherwise. |
| TelemetryViewer.Viewer.ListDocuments | plugin/telemetry-viewer.js:584-645 | A non-object answer or a column without a length throws a TypeError and changes nothing. Otherwise the rows are the projected rows, the columns are `isIncluded` plus the keys, and the point cloud gets the fields and is enabled. |
| TelemetryViewer.Viewer.FetchData | plugin/telemetry-viewer.js:229-233 | The fetch button fetches the selected collection with the limit and skip spinners, the included fields and their sort flags. On success the point cloud's fields are the included fields. |
| TelemetryViewer.Viewer.Visualize | plugin/telemetry-viewer.js:651-674 | For the point cloud it raises `visualize_point_cloud` with the mode and the selected position values. With a colour scale it adds the scalar values and the range. Without fields or rows it throws a TypeError, and another visualization does nothing. |
| Pipeline.ButtonFetchCall | plugin/telemetry-viewer.js:229-233 | The button's documents call carries the collection, skip, limit, fields and sort, plus the session list as a sixth argument under POSITION only. |
| Pipeline.ButtonArgsParse | editor/editor_plugin.cpp:145-208 | The editor parses the button's arguments into the spinner values, the included fields, their sort flags and the session list's position, each taken by its key despite the swapped order. |
| Pipeline.ButtonRequestBuildable | editor/editor_plugin.cpp:227-286 | With spinners below 2^63, string fields and at most 10000 sessions, the editor can build its request. The field names are the included fields, and limit and skip reach the store unchanged. |
| Pipeline.ColumnEmpty | editor/editor_plugin.cpp:290-349 | A column is empty, and so answered as nil, exactly when no document has the field. |
| Pipeline.EditorResultInViewer | plugin/telemetry-viewer.js:584-612 | The editor's answer for distinct fields is one the viewer can read, keyed by the fields. The viewer lists rows exactly when every field is in some document. It then lists at most one row per document, and exactly one per document when some field is in all of them. |
| Pipeline.ReplyColumns | editor/editor_plugin.cpp:288-353 | The editor's answer is keyed by the requested fields in order. A field's value is an array exactly when some document has the field; it is then the field's column, with at most one value per document. |
| Pipeline.SessionsReplyInViewer | plugin/telemetry-viewer.js:568-577 | The sessions answer is an array the viewer can copy exactly when some session of the level is found; otherwise it is nil and the fetch throws. |
| Pipeline.SwitchedServerLooksFailed | plugin/telemetry-viewer.js:430-436 | Switching the editor to another server replaces its client but answers nil, which the viewer takes for failure; the engine answers true for the same switch. |
| Pipeline.DatabaseAnswerInViewer | plugin/telemetry-viewer.js:455-467 | The viewer refuses the editor's answer exactly when there is no client, the database is already selected, or the single collection's name reads as zero; a database without collections hands the viewer nil as its collection list. |

## Left out

- I/O and the drivers are not modelled. This covers the MongoDB client, cursors, counts, collection listing and the viewport. Their answers are parameters: the documents a cursor yields, the collection names, the count, and `uriValid` (whether libmongoc parses an address). Queries sent are logged instead of executed.
- A cursor error (`mongoc_cursor_error`) and its `fprintf` are left out, as are the failure of `fetch_collection_names`' listing apart from its nil result, and the logging calls.
- `init_mongoc`, `clean_mongoc`, plugin loading and unloading, and native function registration are not modelled. The editor unregisters `fetchFieldNames`, which it never registered, and leaves `fetchFieldKeys` registered; this is not modelled.
- EditorPlugin.Plugin.FetchDocuments: its precondition demands that limit and skip be given, that every field name be a string, that there be no more sort flags than fields, and that there be at most 10000 sessions. Without these the source reads uninitialised variables, null keys, elements past an array, or writes past `char_ind`. The model does not say what those undefined behaviours produce.
- EditorPlugin.Plugin.FetchSessionsIds, FetchDocuments and FetchFieldKeys require a selected database. Without one, libmongoc is handed a null database; that case is not modelled.
- EditorPlugin.Plugin.FetchSessionsIds, FetchDocuments, FetchFieldKeys, InitDatabase (for a non-string argument) and EnginePlugin.Engine.FetchFieldData also require that the database handle was opened on the current client (`databaseLive`). After a switch of server the source keeps the handle of the destroyed client and queries through it, which is undefined behaviour; the model records when the handle is stale but does not say what such a query does.
- EnginePlugin.Engine.FetchFieldData requires a selected database: `fetch_field_data` hands `database` to `mongoc_database_get_collection` unchecked, and the null-database case is not modelled.
- EnginePlugin.Engine.FetchFieldData requires a limit argument that is not a string: `lua_tonumber` would convert a numeric string, and that conversion is not modelled.
- EditorPlugin.Plugin.FetchFieldKeys: the early null answer when `mongoc_database_get_collection` gives no collection is not modelled; the collection is taken to open.
- ResourceCompiler.PackSourceDataWithSize and ResourceCompiler.MyResourceCompiler require the source length plus four to fit in 32 bits. For a longer source the `unsigned` size wraps, a buffer that is too short is allocated, and `memcpy` writes past it; that overflow is not modelled. The header's little-endian byte order is that of the targets the plugin is built for; the model fixes it rather than deriving it.
- EditorPlugin.NamesValue and EditorQuery.CollectFieldKeys assume that ConfigData `push` copies the value it is given. The source reuses one ConfigValue for every collection name and every key, and overwrites it before each push.
- Values.StringIsZero does not model floating-point underflow: a non-zero literal such as `1e-400` rounds to zero in JavaScript but not in the model.
- Values.Index reads a property of an object only for a string key or a non-negative whole number; a boolean, null, undefined, negative or fractional key reads as undefined rather than as the property named by its text.
- EditorQuery.CollectSessionIds assumes every `session_id` is a string, as the source reads it without a type check.
- EnginePlugin.Engine.FetchFieldData: the cursor loop runs `sizeof(field_table)` times (80 or more, not 10), so past the named slots it looks up null names. The model visits the named slots only. It requires fewer than MAX_FIELDS names and stack indices that fit the uint8_t `ind`. It also requires a limit that converts to uint64_t, at most 10000 sessions, and position texts with two commas.
- EnginePlugin.Engine.FetchFieldData: `fetch_field_data` returns `n_fields` while the collection is opened; the case where `mongoc_database_get_collection` answers null is not modelled.
- Number-to-string conversion by `lua_tolstring` is not modelled. The engine functions require a first argument that is not a number.
- `atof` is not modelled: a position coordinate is kept as the text it is read from (`LAtof`).
- Floating point is not modelled: JavaScript and BSON numbers are reals. The double→uint64_t conversion is modelled as truncation within range, and the uint64_t→int64 conversion as explicit wrap-around.
- `sort_data_by` is a helper without contract (`SortByTick`). It only appends the `{tick: 1}` sort, and `EngineOpts` states the resulting options.
- TelemetryViewer.PropertyName does not compute the property name of negative or fractional numbers, arrays or objects; their lookups read as undefined.
- The ConfigValue↔JavaScript conversion is assumed, not modelled. A null pointer is taken to arrive as undefined and a nil as null. Object keys are taken to keep insertion order, and an editor object's keys are taken to be distinct (TelemetryViewer.Viewer.FetchDocuments requires that of its answer).
- The deferred `viewportHandle.ready.then(...)` raises are modelled as raised at once, in call order.
- The drop-down transformers (`parseInt` of the view text, including NaN) are not modelled: the parsed option is a method parameter. The same applies to the spinners, text boxes and check boxes, which write the viewer's fields directly.
- Rendering is not modelled. This covers `render`, `createDropdown`, `m.redraw`, the accordions, list views and the `documentsConfig` layout, as well as `loadNativeExtension`, the `loadLevel` path and `plugin/telemetry-viewport.js`.
- The active visualization is always the point cloud, the only one the viewer defines.
- TelemetryViewer.Viewer.SelectCollection models the state effect of `selectCollectionModel` and the error it ends in. The return value after a throw and the field-list view are not modelled.
