/**
 * The slice of Python's runtime that both services rely on: decoded JSON
 * values, truthiness, `dict.get`, subscripting with Python's list indexing
 * rules, iteration over a value, `str()`/`repr()`, and the built-in
 * exceptions those operations raise together with the text `str(e)` gives.
 */
module Python {
  import opened Wrappers

  /** A decoded JSON value as `json.loads` hands it to Python. An object is a
      dict in insertion order. `json.loads` keeps the last value of a repeated
      key, while `Lookup` reads the first entry: the model takes every object
      to have distinct keys (`DistinctKeys`), where the two agree
      (`LookupDistinct`). */
  datatype Json =
    | JNull
    | JBool(b: bool)
    | JInt(i: int)
    | JStr(s: string)
    | JArray(items: seq<Json>)
    | JObject(fields: seq<(string, Json)>)

  datatype PyType = NoneType | BoolType | IntType | StrType | ListType | DictType

  function TypeOf(v: Json): PyType {
    match v
    case JNull => NoneType
    case JBool(_) => BoolType
    case JInt(_) => IntType
    case JStr(_) => StrType
    case JArray(_) => ListType
    case JObject(_) => DictType
  }

  function TypeName(t: PyType): string {
    match t
    case NoneType => "NoneType"
    case BoolType => "bool"
    case IntType => "int"
    case StrType => "str"
    case ListType => "list"
    case DictType => "dict"
  }

  /** The subscripts the services use: integer positions and string keys. */
  datatype Key = IntKey(i: int) | StrKey(s: string)

  /** Exceptions raised by the modelled code. `Foreign` stands for anything a
      collaborator (file system, FAISS, Gemini) raises, carrying `str(e)`. */
  datatype Exc =
    | FileNotFound(message: string)
    | KeyError(key: Key)
    | IndexError(container: PyType)
    | NotSubscriptable(subject: PyType)
    | BadIndexType(container: PyType, index: PyType)
    | NoAttribute(subject: PyType, attribute: string)
    | NotIterable(subject: PyType)
    /** Flask's TypeError for a view that returned None as its body */
    | ViewReturnedNone(endpoint: string)
    | Foreign(message: string)

  // ---------------------------------------------------------------- dicts

  /** The value stored under `k`, if any. */
  function Lookup(fields: seq<(string, Json)>, k: string): (r: Option<Json>)
    ensures r.Some? ==> (k, r.value) in fields
  {
    if |fields| == 0 then None
    else if fields[0].0 == k then Some(fields[0].1)
    else Lookup(fields[1..], k)
  }

  /** No key occurs twice, as in any dict; this is what a JSON object without
      repeated keys decodes to. */
  predicate DistinctKeys(fields: seq<(string, Json)>) {
    forall a, b :: 0 <= a < b < |fields| ==> fields[a].0 != fields[b].0
  }

  predicate HasKey(v: Json, k: string) {
    v.JObject? && Lookup(v.fields, k).Some?
  }

  /** `bool(v)`: None, False, 0, "", [] and {} are falsy. */
  predicate Truthy(v: Json) {
    match v
    case JNull => false
    case JBool(b) => b
    case JInt(i) => i != 0
    case JStr(s) => |s| > 0
    case JArray(items) => |items| > 0
    case JObject(fields) => |fields| > 0
  }

  /** `v.get(k, default)`: only a dict has `get`. */
  function Get(v: Json, k: string, default: Json): (r: Result<Json, Exc>)
    ensures r.Failure? <==> !v.JObject?
    ensures r.Failure? ==> r.error == NoAttribute(TypeOf(v), "get")
    ensures HasKey(v, k) ==> r == Success(Lookup(v.fields, k).value)
    ensures v.JObject? && !HasKey(v, k) ==> r == Success(default)
  {
    match v
    case JObject(fields) =>
      (match Lookup(fields, k)
       case Some(x) => Success(x)
       case None => Success(default))
    case _ => Failure(NoAttribute(TypeOf(v), "get"))
  }

  /** Python's acceptance test for a sequence position: `-n <= i < n`. */
  predicate InRange(i: int, n: nat) {
    -(n as int) <= i < n
  }

  /** The element a Python position selects, counting negatives from the end. */
  function Normalize(i: int, n: nat): (j: nat)
    requires InRange(i, n)
    ensures j < n
    ensures j % n == i % n
  {
    if i < 0 then i + n else i
  }

  /** `v[k]` for the subscripts the services use. */
  function Subscript(v: Json, k: Key): Result<Json, Exc> {
    match v
    case JArray(items) =>
      (match k
       case IntKey(i) =>
         if InRange(i, |items|) then Success(items[Normalize(i, |items|)])
         else Failure(IndexError(ListType))
       case StrKey(_) => Failure(BadIndexType(ListType, StrType)))
    case JStr(s) =>
      (match k
       case IntKey(i) =>
         if InRange(i, |s|) then Success(JStr([s[Normalize(i, |s|)]]))
         else Failure(IndexError(StrType))
       case StrKey(_) => Failure(BadIndexType(StrType, StrType)))
    case JObject(fields) =>
      (match k
       case StrKey(name) =>
         (match Lookup(fields, name)
          case Some(x) => Success(x)
          case None => Failure(KeyError(k)))
       // decoded JSON keys are strings, so an integer never matches one
       case IntKey(_) => Failure(KeyError(k)))
    case _ => Failure(NotSubscriptable(TypeOf(v)))
  }

  /** The elements a `for` loop over `v` visits: list elements, the one-character
      strings of a string, the keys of a dict. */
  function Iterate(v: Json): (r: Result<seq<Json>, Exc>)
    ensures r.Success? <==> v.JArray? || v.JStr? || v.JObject?
    ensures v.JArray? ==> r == Success(v.items)
    ensures v.JStr? ==> |r.value| == |v.s| && forall j :: 0 <= j < |v.s| ==> r.value[j] == JStr([v.s[j]])
    ensures v.JObject? ==>
              |r.value| == |v.fields| && forall j :: 0 <= j < |v.fields| ==> r.value[j] == JStr(v.fields[j].0)
  {
    match v
    case JArray(items) => Success(items)
    case JStr(s) => Success(seq(|s|, j requires 0 <= j < |s| => JStr([s[j]])))
    case JObject(fields) => Success(seq(|fields|, j requires 0 <= j < |fields| => JStr(fields[j].0)))
    case _ => Failure(NotIterable(TypeOf(v)))
  }

  // ---------------------------------------------------------------- text

  function DigitChar(d: nat): char
    requires d < 10
  {
    "0123456789"[d]
  }

  function DigitValue(c: char): int {
    if '0' <= c <= '9' then c as int - '0' as int else -1
  }

  function NatToString(n: nat): (s: string)
    ensures |s| > 0
    ensures forall j :: 0 <= j < |s| ==> '0' <= s[j] <= '9'
    decreases n
  {
    if n < 10 then [DigitChar(n)] else NatToString(n / 10) + [DigitChar(n % 10)]
  }

  /** `str(n)` for an int. */
  function IntToString(n: int): string {
    if n < 0 then "-" + NatToString(-n) else NatToString(n)
  }

  /** The value of a non-empty string of decimal digits, most significant first. */
  function ParseDigits(s: string): int
    decreases |s|
  {
    if |s| == 0 then 0 else ParseDigits(s[..|s| - 1]) * 10 + DigitValue(s[|s| - 1])
  }

  /** `int(s)` on what `str` produces for an int. */
  function ParseInt(s: string): int {
    if |s| > 0 && s[0] == '-' then -ParseDigits(s[1..]) else ParseDigits(s)
  }

  lemma {:induction false} NatToStringRoundTrip(n: nat)
    ensures ParseDigits(NatToString(n)) == n
    decreases n
  {
    if n >= 10 {
      var s := NatToString(n);
      NatToStringRoundTrip(n / 10);
      assert s[..|s| - 1] == NatToString(n / 10);
    }
  }

  /** `str` of an int is read back as the same int. */
  lemma IntToStringRoundTrip(n: int)
    ensures ParseInt(IntToString(n)) == n
  {
    NatToStringRoundTrip(if n < 0 then -n else n);
    if n >= 0 {
      assert IntToString(n)[0] != '-';
    } else {
      assert IntToString(n)[1..] == NatToString(-n);
    }
  }

  /** A text with no character `repr` would escape. */
  predicate PlainText(s: string) {
    forall j :: 0 <= j < |s| ==> !Special(s[j])
  }

  /** Characters `repr` writes as a backslash escape, besides the quote in use. */
  predicate Special(c: char) {
    c == '\\' || c == '\n' || c == '\r' || c == '\t' || c == '\'' || c == '"'
  }

  function EscapeChar(c: char, quote: char): string {
    if c == '\\' then "\\\\"
    else if c == '\n' then "\\n"
    else if c == '\r' then "\\r"
    else if c == '\t' then "\\t"
    else if c == quote then ['\\', quote]
    else [c]
  }

  function Escape(s: string, quote: char): string
    decreases |s|
  {
    if |s| == 0 then "" else EscapeChar(s[0], quote) + Escape(s[1..], quote)
  }

  /** `repr` of a str: single quotes unless the text holds a single quote and no
      double quote. */
  function StrRepr(s: string): (r: string)
    ensures |r| >= 2 && r[0] == r[|r| - 1]
    ensures r[0] == '\'' || r[0] == '"'
  {
    var quote := if '\'' in s && '"' !in s then '"' else '\'';
    [quote] + Escape(s, quote) + [quote]
  }

  lemma {:induction false} EscapePlain(s: string, quote: char)
    requires PlainText(s)
    requires quote == '\'' || quote == '"'
    ensures Escape(s, quote) == s
    decreases |s|
  {
    if |s| > 0 {
      EscapePlain(s[1..], quote);
    }
  }

  /** A text with no quote, backslash or control character is repr'd between
      single quotes, so `str(KeyError('documento'))` is `'documento'`. */
  lemma PlainStrRepr(s: string)
    requires PlainText(s)
    ensures StrRepr(s) == "'" + s + "'"
  {
    assert forall j :: 0 <= j < |s| ==> s[j] != '\'';
    EscapePlain(s, '\'');
  }

  /** A text between single quotes. */
  function Quoted(s: string): string {
    "'" + s + "'"
  }

  /** `str(KeyError(k))` for a key with no quotes, backslashes or control
      characters: the key between single quotes. */
  lemma KeyErrorText(k: string)
    requires PlainText(k)
    ensures ExcText(KeyError(StrKey(k))) == Quoted(k)
  {
    PlainStrRepr(k);
  }

  function Join(parts: seq<string>): string
    decreases |parts|
  {
    if |parts| == 0 then ""
    else if |parts| == 1 then parts[0]
    else parts[0] + ", " + Join(parts[1..])
  }

  /** `repr(v)` for a decoded JSON value. */
  function Repr(v: Json): string
    decreases v
  {
    match v
    case JNull => "None"
    case JBool(b) => if b then "True" else "False"
    case JInt(i) => IntToString(i)
    case JStr(s) => StrRepr(s)
    case JArray(items) =>
      "[" + Join(seq(|items|, j requires 0 <= j < |items| => Repr(items[j]))) + "]"
    case JObject(fields) =>
      "{" + Join(seq(|fields|, j requires 0 <= j < |fields| =>
                       StrRepr(fields[j].0) + ": " + Repr(fields[j].1))) + "}"
  }

  /** `str(v)`, which is what an f-string inserts: a str as it is, anything
      else as its repr. */
  function Str(v: Json): (r: string)
    ensures v.JStr? ==> r == v.s
    ensures v.JNull? ==> r == "None"
    ensures v.JInt? ==> ParseInt(r) == v.i
  {
    match v
    case JStr(s) => s
    case JInt(i) => IntToStringRoundTrip(i); Repr(v)
    case _ => Repr(v)
  }

  /** `str(e)` for each exception the model raises. */
  function ExcText(e: Exc): string {
    match e
    case FileNotFound(m) => m
    case KeyError(k) =>
      (match k
       case StrKey(s) => StrRepr(s)
       case IntKey(i) => IntToString(i))
    case IndexError(t) =>
      if t == StrType then "string index out of range" else "list index out of range"
    case NotSubscriptable(t) => "'" + TypeName(t) + "' object is not subscriptable"
    case BadIndexType(c, t) =>
      if c == StrType then "string indices must be integers, not '" + TypeName(t) + "'"
      else "list indices must be integers or slices, not " + TypeName(t)
    case NoAttribute(t, a) => "'" + TypeName(t) + "' object has no attribute '" + a + "'"
    case NotIterable(t) => "'" + TypeName(t) + "' object is not iterable"
    case ViewReturnedNone(endpoint) =>
      "The view function for " + StrRepr(endpoint)
      + " did not return a valid response. The function either returned None or ended without a return statement."
    case Foreign(m) => m
  }

  // ---------------------------------------------------------------- list indexing

  /** Python list indexing accepts exactly the positions in `[-n, n)`; any other
      position raises IndexError. */
  lemma ListIndexing(items: seq<Json>, i: int)
    ensures Subscript(JArray(items), IntKey(i)).Success? <==> -|items| <= i < |items|
    ensures 0 <= i < |items| ==> Subscript(JArray(items), IntKey(i)) == Success(items[i])
    ensures -|items| <= i < 0 ==> Subscript(JArray(items), IntKey(i)) == Success(items[|items| + i])
    ensures !(-|items| <= i < |items|) ==>
              Subscript(JArray(items), IntKey(i)) == Failure(IndexError(ListType))
  {
  }

  /** A negative position selects the same element as that position plus the
      length: it never raises while it stays in range. */
  lemma NegativeIndexFromEnd(items: seq<Json>, i: int)
    requires -|items| <= i < 0
    ensures Subscript(JArray(items), IntKey(i)) == Subscript(JArray(items), IntKey(i + |items|))
  {
  }

  /** In a dict with distinct keys, reading a key gives back the one value stored
      under it. */
  lemma LookupDistinct(fields: seq<(string, Json)>, j: nat)
    requires j < |fields|
    requires DistinctKeys(fields)
    ensures Lookup(fields, fields[j].0) == Some(fields[j].1)
    decreases j
  {
    if j > 0 {
      LookupDistinct(fields[1..], j - 1);
    }
  }
}
