/** Values that cross the wire between the Flask API and the React client, and the
    truthiness tests both sides apply to them. */
module JsonValues {

  datatype Option<+T> = None | Some(value: T)

  /** A JSON value as either side sees it.
      `Pair` is the Python 2-tuple `(title, category_guess)`, which the API serialises
      as a two-element array; `Undefined` is JavaScript's `undefined`, i.e. a key the
      object does not have. */
  datatype Json =
    | Undefined
    | Null
    | Bool(b: bool)
    | Int(i: int)
    | Str(s: string)
    | Pair(first: string, second: string)

  /** A JSON object: a Python `dict` on the server, a plain object on the client. */
  type Obj = map<string, Json>

  /** JavaScript's `o[key]`: a missing key reads as undefined. */
  function Get(o: Obj, key: string): (v: Json)
    ensures v != Undefined ==> key in o && o[key] == v
    ensures key !in o ==> v == Undefined
  {
    if key in o then o[key] else Undefined
  }

  /** Python's `d.get(key)`: a missing key reads as None. */
  function PyGet(d: Obj, key: string): (v: Json)
    ensures key in d ==> v == d[key]
    ensures key !in d ==> v == Null
  {
    if key in d then d[key] else Null
  }

  /** Truthiness: Python's `bool(v)` and JavaScript's `!!v` agree on these values
      (a non-empty tuple, like a JavaScript array, is truthy). */
  predicate Truthy(v: Json) {
    match v
    case Undefined => false
    case Null => false
    case Bool(b) => b
    case Int(i) => i != 0
    case Str(s) => s != ""
    case Pair(_, _) => true
  }

  /** The falsy values: the empty text, 0, false, null and undefined. */
  lemma TruthyStrings(s: string, i: int, b: bool, p: string, q: string)
    ensures Truthy(Str(s)) <==> |s| > 0
    ensures Truthy(Int(i)) <==> i != 0
    ensures Truthy(Bool(b)) <==> b
    ensures Truthy(Pair(p, q))
    ensures !Truthy(Null) && !Truthy(Undefined)
  {
  }

  /** Decimal digits of a natural number. */
  function NatToString(n: nat): (r: string)
    ensures |r| > 0
    decreases n
  {
    var d := "0123456789"[n % 10];
    if n < 10 then [d] else NatToString(n / 10) + [d]
  }

  /** JavaScript's `String(v)`, as used by template literals and `new Error(v)`. */
  function JsString(v: Json): (r: string)
    ensures v.Str? ==> r == v.s
    ensures v == Undefined ==> r == "undefined"
    ensures v.Int? && v.i >= 0 ==> r == NatToString(v.i)
  {
    match v
    case Undefined => "undefined"
    case Null => "null"
    case Bool(b) => if b then "true" else "false"
    case Int(i) => if i < 0 then "-" + NatToString(-i) else NatToString(i)
    case Str(s) => s
    case Pair(a, b) => a + "," + b
  }

  /** `JSON.stringify` drops keys whose value is undefined. */
  function DropUndefined(o: Obj): (r: Obj)
    ensures forall k :: k in r <==> k in o && o[k] != Undefined
    ensures forall k :: k in r ==> r[k] == o[k]
  {
    map k | k in o && o[k] != Undefined :: o[k]
  }
}
