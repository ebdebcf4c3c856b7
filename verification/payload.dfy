/**
 * The payload codec: decoded JSON values, Python truthiness and `dict.get`,
 * the whitespace test behind `payload.strip() == ""`, the newline removal done
 * before base64 decoding, and the library decoders the integration calls
 * (json.loads, float, round, base64.b64decode, json.dumps), which the model
 * takes as opaque partial functions.
 */
module Payload {
  import opened Wrappers

  type Bytes = seq<bv8>

  /** A value as json.loads returns it. */
  datatype Json =
    | JNull
    | JBool(b: bool)
    | JNumber(x: real)
    | JString(s: string)
    | JArray(items: seq<Json>)
    | JObject(fields: map<string, Json>)

  /** Python truthiness of a decoded value, as in `if topic:`. */
  predicate Truthy(v: Json) {
    match v
    case JNull => false
    case JBool(b) => b
    case JNumber(x) => x != 0.0
    case JString(s) => s != ""
    case JArray(items) => items != []
    case JObject(fields) => fields != map[]
  }

  /** Python's `a or b`: `a` when it is truthy, otherwise `b`. */
  function Or(a: Json, b: Json): Json {
    if Truthy(a) then a else b
  }

  /** `d.get(key, default)` on a decoded JSON object. */
  function Get(d: map<string, Json>, key: string, default: Json): Json {
    if key in d then d[key] else default
  }

  /**
   * The library calls the integration makes on payloads. None stands for the
   * exception the call raises (JSONDecodeError, ValueError, binascii.Error).
   */
  datatype Codec = Codec(
    loads: string -> Option<Json>,
    toFloat: string -> Option<real>,
    round2: real -> real,
    b64decode: string -> Option<Bytes>,
    dumps: Json -> string)

  /** Python's str.isspace for one character. */
  predicate IsSpace(c: char) {
    || c == ' ' || c == '\t' || c == '\n' || c == '\r'
    || c == '\U{b}' || c == '\U{c}'
    || ('\U{1c}' <= c <= '\U{1f}')
    || c == '\U{85}' || c == '\U{a0}' || c == '\U{1680}'
    || ('\U{2000}' <= c <= '\U{200a}')
    || c == '\U{2028}' || c == '\U{2029}' || c == '\U{202f}'
    || c == '\U{205f}' || c == '\U{3000}'
  }

  predicate AllSpace(s: string) {
    forall i :: 0 <= i < |s| ==> IsSpace(s[i])
  }

  /** Number of whitespace characters at the start of `s`. */
  function LeadingSpace(s: string): (n: nat)
    ensures n <= |s| && AllSpace(s[..n])
    ensures n < |s| ==> !IsSpace(s[n])
  {
    if s != [] && IsSpace(s[0]) then
      var n := 1 + LeadingSpace(s[1..]);
      assert forall k :: 1 <= k < n ==> s[k] == s[1..][..n - 1][k - 1];
      n
    else 0
  }

  /** Index where the whitespace at the end of `s` begins. */
  function TrailingSpace(s: string): (j: nat)
    ensures j <= |s| && AllSpace(s[j..])
    ensures 0 < j ==> !IsSpace(s[j - 1])
  {
    if s != [] && IsSpace(s[|s| - 1]) then
      var j := TrailingSpace(s[..|s| - 1]);
      assert forall k :: j <= k < |s| - 1 ==> s[k] == s[..|s| - 1][j..][k - j];
      j
    else |s|
  }

  /**
   * Python's `str.strip()`: whitespace dropped at both ends. The result is
   * empty exactly when every character of `s` is whitespace, and otherwise
   * starts and ends with a non-whitespace character.
   */
  function Strip(s: string): (r: string)
    ensures |r| <= |s|
    ensures r == [] <==> AllSpace(s)
    ensures r != [] ==> !IsSpace(r[0]) && !IsSpace(r[|r| - 1])
  {
    var i := LeadingSpace(s);
    var t := s[i..];
    var j := TrailingSpace(t);
    assert AllSpace(s) ==> i == |s|;
    t[..j]
  }

  /**
   * What strip keeps is the input with a run of whitespace removed at each
   * end, and no more: the result is a slice of the input whose two outsides
   * are whitespace only.
   */
  lemma StripIsSlice(s: string)
    ensures exists i, j :: 0 <= i <= j <= |s| && Strip(s) == s[i..j] && AllSpace(s[..i]) && AllSpace(s[j..])
  {
    var i := LeadingSpace(s);
    var t := s[i..];
    var j := TrailingSpace(t);
    assert t[..j] == s[i..i + j];
    assert s[i + j..] == t[j..];
  }

  /**
   * The test `not payload or payload.strip() == ""` by which both the
   * configuration handler and the discovery callback drop a message.
   */
  predicate IsBlank(payload: string) {
    payload == "" || Strip(payload) == ""
  }

  /** A blank payload is exactly one made of whitespace only (the empty one included). */
  lemma BlankIffAllSpace(payload: string)
    ensures IsBlank(payload) <==> forall i :: 0 <= i < |payload| ==> IsSpace(payload[i])
  {
  }

  /** `s.replace("\n", "")`: every line feed removed, everything else kept in order. */
  function RemoveNewlines(s: string): (r: string)
    ensures '\n' !in r
    ensures |r| <= |s|
    ensures '\n' !in s ==> r == s
  {
    if s == [] then []
    else (if s[0] == '\n' then [] else [s[0]]) + RemoveNewlines(s[1..])
  }

  /** Removing line feeds commutes with concatenation. */
  lemma {:induction false} RemoveNewlinesConcat(a: string, b: string)
    ensures RemoveNewlines(a + b) == RemoveNewlines(a) + RemoveNewlines(b)
  {
    if a == [] {
      assert a + b == b;
    } else {
      assert (a + b)[0] == a[0] && (a + b)[1..] == a[1..] + b;
      RemoveNewlinesConcat(a[1..], b);
    }
  }

  /**
   * Removing line feeds keeps every other character, as often as it occurs:
   * the result holds exactly the input's characters less its line feeds.
   */
  lemma {:induction false} RemoveNewlinesKeepsOthers(s: string)
    ensures multiset(RemoveNewlines(s)) == multiset(s)['\n' := 0]
    ensures |RemoveNewlines(s)| == |s| - multiset(s)['\n']
  {
    if s != [] {
      assert s == [s[0]] + s[1..];
      RemoveNewlinesKeepsOthers(s[1..]);
    }
  }
}
