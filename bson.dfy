/** BSON documents as the two native plugins see them, the one lookup they use
    (`bson_iter_find_descendant`), and the request shapes both plugins send to
    the document store. The store itself is not modelled: what it answers is a
    parameter of every operation that queries it. */
module Bson {
  import opened Common

  datatype Bson =
    | BDouble(d: real)
    | BUtf8(s: string)
    | BInt32(i: int)
    | BInt64(l: int)
    | BBool(b: bool)
    | BDateTime(ms: int)
    | BTimestamp(timestamp: int, increment: int)
    | BUndefined
    | BNull
    | BDocument(entries: seq<(string, Bson)>)
    | BArray(elements: seq<(string, Bson)>)
    | BOther  // every other element type (ObjectId, binary, regex, ...)

  /** A document: its elements in order. */
  type Doc = seq<(string, Bson)>

  /** One query sent to a collection: `find_with_opts(collection, filter, opts)`,
      or the count the engine asks for before it. */
  datatype Find = Find(collection: string, filter: Doc, opts: Doc)

  /** Document and array elements can be recursed into (`bson_iter_recurse`). */
  predicate IsContainer(v: Bson)
  {
    v.BDocument? || v.BArray?
  }

  function Children(v: Bson): Doc
    requires IsContainer(v)
  {
    if v.BDocument? then v.entries else v.elements
  }

  /** Position of the first occurrence of c. */
  function FirstIndexOf(s: string, c: char): (r: Option<nat>)
    ensures r.Some? ==> r.value < |s| && s[r.value] == c && c !in s[..r.value]
    ensures r.None? ==> c !in s
  {
    if |s| == 0 then None
    else if s[0] == c then Some(0)
    else match FirstIndexOf(s[1..], c)
      case None => None
      case Some(i) => assert s[..i + 1] == [s[0]] + s[1..][..i]; Some(i + 1)
  }

  /** Position of the first element whose key is `key`. */
  function FindKey(doc: Doc, key: string): (r: Option<nat>)
    ensures r.Some? ==> r.value < |doc| && doc[r.value].0 == key
                        && forall j :: 0 <= j < r.value ==> doc[j].0 != key
    ensures r.None? ==> forall j :: 0 <= j < |doc| ==> doc[j].0 != key
  {
    if |doc| == 0 then None
    else if doc[0].0 == key then Some(0)
    else match FindKey(doc[1..], key)
      case None => None
      case Some(i) => Some(i + 1)
  }

  /** `bson_iter_find_descendant`: a dotted path is followed one segment at a
      time through documents and arrays; each segment matches the first element
      with exactly that key, and an empty segment matches nothing (libbson's
      key search gives up on a key of length 0). The result is the element
      found, key and value. */
  function FindDescendant(doc: Doc, path: string): Option<(string, Bson)>
    decreases |path|
  {
    var dot := FirstIndexOf(path, '.');
    var head := if dot.Some? then path[..dot.value] else path;
    if |head| == 0 then None
    else match FindKey(doc, head)
    case None => None
    case Some(i) =>
      if dot.None? then Some(doc[i])
      else if IsContainer(doc[i].1) then FindDescendant(Children(doc[i].1), path[dot.value + 1..])
      else None
  }

  /** The text after the last dot of a path (the whole path if it has none). */
  function LastSegment(path: string): string
    decreases |path|
  {
    match FirstIndexOf(path, '.')
    case None => path
    case Some(d) => LastSegment(path[d + 1..])
  }

  /** The element found under a path carries the path's last segment as its key:
      the engine's test `key == "position"` is a test on the requested path. */
  lemma {:induction false} FoundKeyIsLastSegment(doc: Doc, path: string)
    requires FindDescendant(doc, path).Some?
    ensures FindDescendant(doc, path).value.0 == LastSegment(path)
    decreases |path|
  {
    var dot := FirstIndexOf(path, '.');
    var i := FindKey(doc, if dot.Some? then path[..dot.value] else path).value;
    if dot.Some? {
      FoundKeyIsLastSegment(Children(doc[i].1), path[dot.value + 1..]);
    }
  }

  /** A non-empty path without dots finds the first top-level element with
      that key; the empty path finds nothing, even under an empty key. */
  lemma PlainPathIsTopLevel(doc: Doc, key: string)
    requires '.' !in key
    ensures FindDescendant(doc, key).Some? <==> key != "" && exists j :: 0 <= j < |doc| && doc[j].0 == key
    ensures FindDescendant(doc, key).Some? ==> FindDescendant(doc, key).value.0 == key
  {
    if FindKey(doc, key).None? {
      assert FindDescendant(doc, key).None?;
    }
  }

  /** A path that ends in a dot finds nothing: its last segment is empty. */
  lemma {:induction false} TrailingDotFindsNothing(doc: Doc, path: string)
    requires |path| > 0 && path[|path| - 1] == '.'
    ensures FindDescendant(doc, path).None?
    decreases |path|
  {
    var dot := FirstIndexOf(path, '.');
    var head := path[..dot.value];
    if head != "" && FindKey(doc, head).Some? {
      var i := FindKey(doc, head).value;
      var rest := path[dot.value + 1..];
      if IsContainer(doc[i].1) && rest != "" {
        assert rest[|rest| - 1] == '.';
        TrailingDotFindsNothing(Children(doc[i].1), rest);
      }
    }
  }

  // ---- integer conversions on the way into a request ----

  /** `(uint64_t)` of a double: truncation toward zero, defined while the result
      fits. */
  function TruncU64(x: real): (u: nat)
    requires -1.0 < x < 18446744073709551616.0
    ensures u < 18446744073709551616
  {
    if x < 0.0 then 0 else x.Floor
  }

  /** `BSON_APPEND_INT64` of a uint64_t: the bits read as a signed 64-bit
      number. */
  function AsInt64(u: nat): (l: int)
    requires u < 18446744073709551616
    ensures -9223372036854775808 <= l < 9223372036854775808
    ensures u < 9223372036854775808 ==> l == u
  {
    if u < 9223372036854775808 then u else u - 18446744073709551616
  }

  predicate InU64Range(x: real)
  {
    -1.0 < x < 18446744073709551616.0
  }

  // ---- request shapes shared by the editor and the engine plugin ----

  /** `BSON_APPEND_UTF8` with a possibly-null string: libbson appends a BSON null
      for a null value. */
  function Utf8OrNull(s: Option<string>): Bson
  {
    if s.Some? then BUtf8(s.value) else BNull
  }

  /** The `$or` array: element i is keyed by the decimal text of i and holds
      `{session_id: ids[i]}`. */
  function SessionClauses(ids: seq<Option<string>>): Doc
  {
    seq(|ids|, i requires 0 <= i < |ids| => (DecimalString(i), BDocument([("session_id", Utf8OrNull(ids[i]))])))
  }

  /** The filter of a position-mode fetch: only documents having
      `params.position`, and one of the given sessions. */
  function SessionFilter(ids: seq<Option<string>>): Doc
  {
    [("params.position", BDocument([("$exists", BBool(true))])), ("$or", BArray(SessionClauses(ids)))]
  }

  /** The projection document: `_id` excluded, then every requested field
      included, in request order. */
  function Projection(fields: seq<string>): Doc
  {
    [("_id", BBool(false))] + seq(|fields|, i requires 0 <= i < |fields| => (fields[i], BBool(true)))
  }

  /** The `$or` keys fit the 5-byte `char_ind` buffer (four digits and the
      terminating zero) exactly when there are at most 10000 sessions, and no two
      clauses share a key. */
  lemma {:induction false} SessionClauseKeys(ids: seq<Option<string>>)
    ensures (forall i :: 0 <= i < |ids| ==> |SessionClauses(ids)[i].0| <= 4) <==> |ids| <= 10000
    ensures forall i, j :: 0 <= i < j < |ids| ==> SessionClauses(ids)[i].0 != SessionClauses(ids)[j].0
  {
    assert Pow10(4) == 10000;
    forall i | 0 <= i < |ids| ensures |SessionClauses(ids)[i].0| <= 4 <==> i < 10000 {
      DecimalStringLength(i, 4);
    }
    if |ids| > 10000 {
      assert |SessionClauses(ids)[10000].0| > 4;
    }
    forall i, j | 0 <= i < j < |ids| ensures SessionClauses(ids)[i].0 != SessionClauses(ids)[j].0 {
      DecimalStringInjective(i, j);
    }
  }
}
