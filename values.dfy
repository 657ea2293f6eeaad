/** The dynamic values that cross the boundary between the JavaScript viewer and
    the editor's native extension: JavaScript values on one side, ConfigValues
    on the other. Numbers are kept as reals (see README, "Left out"). */
module Values {
  import opened Common

  datatype Value =
    | Undefined
    | Nil
    | Number(n: real)
    | Str(s: string)
    | Bool(b: bool)
    | Array(items: seq<Value>)
    | Object(entries: seq<(string, Value)>)

  /** `v == null` in JavaScript: true for null and undefined only. */
  predicate IsNullish(v: Value)
  {
    v.Undefined? || v.Nil?
  }

  /** JavaScript truthiness. */
  predicate Truthy(v: Value)
  {
    match v
    case Undefined => false
    case Nil => false
    case Number(n) => n != 0.0
    case Str(s) => s != ""
    case Bool(b) => b
    case Array(_) => true
    case Object(_) => true
  }

  /** `obj[key]` on an object: the entry's value, or undefined when absent. */
  function Get(v: Value, key: string): (r: Value)
    ensures !v.Object? ==> r.Undefined?
    ensures v.Object? && (forall i :: 0 <= i < |v.entries| ==> v.entries[i].0 != key) ==> r.Undefined?
    decreases if v.Object? then |v.entries| else 0
  {
    if v.Object? && |v.entries| > 0 then
      if v.entries[0].0 == key then v.entries[0].1 else Get(Object(v.entries[1..]), key)
    else Undefined
  }

  /** `v[key]` for a key a dropdown hands over: an array or string index given
      as a number or as its decimal text, or an object property named by a
      string or by a non-negative whole number (its decimal text). Anything
      else reads as undefined. */
  function Index(v: Value, key: Value): (r: Value)
    requires !IsNullish(v)
    ensures (v.Array? && key.Number? && key.n.Floor as real == key.n && 0 <= key.n.Floor < |v.items|)
              ==> r == v.items[key.n.Floor]
    ensures (v.Array? && key.Number? && (key.n.Floor as real != key.n || key.n.Floor < 0 || key.n.Floor >= |v.items|))
              ==> r.Undefined?
    ensures v.Object? && key.Str? ==> r == Get(v, key.s)
    ensures (v.Object? && key.Number? && key.n.Floor as real == key.n && key.n.Floor >= 0)
              ==> r == Get(v, DecimalString(key.n.Floor))
  {
    var k := IndexOf(key);
    match v
    case Array(items) => if k.Some? && k.value < |items| then items[k.value] else Undefined
    case Str(s) => if k.Some? && k.value < |s| then Str([s[k.value]]) else Undefined
    case Object(_) =>
      if key.Str? then Get(v, key.s)
      else if key.Number? && k.Some? then Get(v, DecimalString(k.value))
      else Undefined
    case _ => Undefined
  }

  /** The array index a key denotes, if any. */
  function IndexOf(key: Value): (r: Option<nat>)
    ensures key.Number? ==> (r.Some? <==> key.n.Floor as real == key.n && key.n.Floor >= 0)
    ensures r.Some? && key.Number? ==> r.value == key.n.Floor
    ensures r.Some? && key.Str? ==> key.s == DecimalString(r.value)
  {
    match key
    case Number(n) => if n.Floor as real == n && n.Floor >= 0 then Some(n.Floor) else None
    case Str(s) => if IsDecimal(s) then Some(DecimalValue(s)) else None
    case _ => None
  }

  /** Canonical decimal text: digits only, no superfluous leading zero. */
  predicate IsDecimal(s: string)
  {
    |s| >= 1 && (forall i :: 0 <= i < |s| ==> '0' <= s[i] <= '9') && (s[0] == '0' ==> |s| == 1)
  }

  function DecimalValue(s: string): (n: nat)
    requires IsDecimal(s)
    ensures DecimalString(n) == s
    decreases |s|
  {
    var last := (s[|s| - 1] as int) - 48;
    if |s| == 1 then last
    else
      var init := s[..|s| - 1];
      assert IsDecimal(init);
      var m := DecimalValue(init);
      assert init[0] == s[0];
      var n := 10 * m + last;
      assert n / 10 == m && n % 10 == last;
      n
  }

  // ---- JavaScript `v == false` ----

  /** The white space and line terminators `Number(string)` trims
      (ECMAScript's WhiteSpace and LineTerminator: tab, vertical tab, form
      feed, the byte order mark, the space separators, and the four line
      terminators). */
  predicate IsSpace(c: char)
  {
    || c == '\t' || c == '\U{B}' || c == '\U{C}' || c == '\U{FEFF}'
    || c == ' ' || c == '\U{A0}' || c == '\U{1680}' || ('\U{2000}' <= c <= '\U{200A}')
    || c == '\U{202F}' || c == '\U{205F}' || c == '\U{3000}'
    || c == '\n' || c == '\r' || c == '\U{2028}' || c == '\U{2029}'
  }

  /** The number of white-space characters the text starts with. */
  function LeadingSpaces(s: string): (n: nat)
    ensures n <= |s|
    ensures forall k :: 0 <= k < n ==> IsSpace(s[k])
    ensures n < |s| ==> !IsSpace(s[n])
  {
    if |s| == 0 || !IsSpace(s[0]) then 0 else 1 + LeadingSpaces(s[1..])
  }

  /** The number of white-space characters the text ends with. */
  function TrailingSpaces(s: string): (n: nat)
    ensures n <= |s|
    ensures forall k :: |s| - n <= k < |s| ==> IsSpace(s[k])
    ensures n < |s| ==> !IsSpace(s[|s| - 1 - n])
  {
    if |s| == 0 || !IsSpace(s[|s| - 1]) then 0 else 1 + TrailingSpaces(s[..|s| - 1])
  }

  /** The text with its leading and trailing white space removed: a slice of
      it with only white space cut off at either end, and none left at
      either end. */
  function Trim(s: string): (t: string)
    ensures |t| > 0 ==> !IsSpace(t[0]) && !IsSpace(t[|t| - 1])
    ensures exists i, j :: 0 <= i <= j <= |s| && t == s[i..j]
              && (forall k :: 0 <= k < i ==> IsSpace(s[k])) && (forall k :: j <= k < |s| ==> IsSpace(s[k]))
  {
    var i := LeadingSpaces(s);
    var rest := s[i..];
    var j := |s| - TrailingSpaces(rest);
    forall k | j <= k < |s|
      ensures IsSpace(s[k])
    {
      assert s[k] == rest[k - i];
    }
    s[i..j]
  }

  predicate IsDigits(s: string)
  {
    |s| > 0 && forall i :: 0 <= i < |s| ==> '0' <= s[i] <= '9'
  }

  /** The index of the first `e` or `E`, or the length when there is none. */
  function ExponentStart(s: string): (k: nat)
    ensures k <= |s|
    ensures forall i :: 0 <= i < k ==> s[i] != 'e' && s[i] != 'E'
    ensures k < |s| ==> s[k] == 'e' || s[k] == 'E'
  {
    if |s| == 0 || s[0] == 'e' || s[0] == 'E' then 0 else 1 + ExponentStart(s[1..])
  }

  /** An ExponentPart: `e` or `E`, an optional sign, then digits. */
  predicate IsExponentPart(s: string)
  {
    && |s| >= 2 && (s[0] == 'e' || s[0] == 'E')
    && IsDigits(if s[1] == '+' || s[1] == '-' then s[2..] else s[1..])
  }

  /** The digits of a decimal literal, all zeros: at least one zero and at
      most one decimal point. */
  predicate IsZeroMantissa(m: string)
  {
    && (exists i :: 0 <= i < |m| && m[i] == '0')
    && (forall i :: 0 <= i < |m| ==> m[i] == '0' || m[i] == '.')
    && (forall i, j :: 0 <= i < j < |m| && m[i] == '.' ==> m[j] != '.')
  }

  /** A decimal literal whose value is zero: an optional sign, a zero
      mantissa and an optional exponent (zero times any power of ten). */
  predicate IsZeroDecimal(s: string)
  {
    var body := if |s| > 0 && (s[0] == '+' || s[0] == '-') then s[1..] else s;
    var k := ExponentStart(body);
    IsZeroMantissa(body[..k]) && (k == |body| || IsExponentPart(body[k..]))
  }

  /** A binary, octal or hexadecimal literal (unsigned) whose digits are all
      zeros. */
  predicate IsZeroNonDecimal(s: string)
  {
    && |s| >= 3 && s[0] == '0' && s[1] in {'x', 'X', 'o', 'O', 'b', 'B'}
    && forall i :: 2 <= i < |s| ==> s[i] == '0'
  }

  /** A numeric literal `Number(string)` reads as zero. */
  predicate IsZeroLiteral(s: string)
  {
    IsZeroDecimal(s) || IsZeroNonDecimal(s)
  }

  /** `Number(s) == 0`. */
  predicate StringIsZero(s: string)
  {
    Trim(s) == "" || IsZeroLiteral(Trim(s))
  }

  /** `v == false` with JavaScript's loose equality: both sides are converted to
      numbers; an array is first joined with commas. */
  predicate LooseEqualsFalse(v: Value)
  {
    match v
    case Undefined => false
    case Nil => false
    case Bool(b) => !b
    case Number(n) => n == 0.0
    case Str(s) => StringIsZero(s)
    case Array(_) => JoinIsZero(v)
    case Object(_) => false
  }

  /** `Number(a.join(",")) == 0` for an array value. */
  predicate JoinIsZero(a: Value)
    requires a.Array?
  {
    if |a.items| == 0 then true
    else if |a.items| > 1 then false  // the joined text holds a comma: NaN
    else match a.items[0]
      case Undefined => true
      case Nil => true
      case Number(n) => n == 0.0
      case Str(s) => StringIsZero(s)
      case Bool(_) => false
      case Array(_) => JoinIsZero(a.items[0])
      case Object(_) => false
  }

  /** A zero with an exponent reads as zero. */
  lemma ExponentZeroIsZero()
    ensures StringIsZero("0e0")
  {
  }

  /** A hexadecimal zero reads as zero. */
  lemma HexZeroIsZero()
    ensures StringIsZero("0x0")
  {
  }

  /** A no-break space and a byte order mark around a zero are trimmed. */
  lemma UnicodeSpacesAreTrimmed()
    ensures StringIsZero("\U{A0}0\U{FEFF}")
  {
  }

  /** An exponent needs digits: `0e` does not read as a number. */
  lemma BareExponentIsNotZero()
    ensures !StringIsZero("0e")
  {
  }

  /** A radix literal takes no sign. */
  lemma SignedHexIsNotZero()
    ensures !StringIsZero("-0x0")
  {
    var s := "-0x0";
    assert LeadingSpaces(s) == 0 && TrailingSpaces(s) == 0;
    assert Trim(s) == s;
    var body := s[1..];
    assert ExponentStart(body) == 3 && body[..3] == body && body[1] == 'x';
    assert !IsZeroMantissa(body);
  }

  /** An empty array is loosely equal to false, a non-empty array of two or more
      elements never is. */
  lemma ArrayLooseEqualsFalse(items: seq<Value>)
    ensures |items| == 0 ==> LooseEqualsFalse(Array(items))
    ensures |items| >= 2 ==> !LooseEqualsFalse(Array(items))
    ensures (forall i :: 0 <= i < |items| ==> items[i].Str? && items[i].s == "")
              ==> (LooseEqualsFalse(Array(items)) <==> |items| <= 1)
  {
    if |items| == 1 && items[0].Str? && items[0].s == "" {
      assert Trim("") == "";
    }
  }
}
