/** Decoded JSON values as the service handles them, and the small pieces of
    Python semantics the modelled code relies on: `dict.get`, dict
    comprehensions that drop a key, `for x in v`, truthiness and `str.lower`. */
module Values {

  datatype Option<+T> = None | Some(value: T)

  datatype Result<+T, +E> = Success(value: T) | Failure(error: E)

  /** A decoded JSON value. An object keeps its fields in insertion order, as
      a Python dict does; its keys are taken to be distinct. */
  datatype Json =
    | Null
    | Bool(b: bool)
    | Num(r: real)
    | Str(s: string)
    | Array(elems: seq<Json>)
    | Object(fields: seq<(string, Json)>)

  type Fields = seq<(string, Json)>

  /** The exceptions Python raises on the paths this model covers. */
  datatype PyError =
    | NotIterable(value: Json)                 // TypeError from `for x in value`
    | UnpackMismatch(expected: nat, got: nat)  // ValueError from `a, b = <dict with `got` keys>`
    | NotAMapping(value: Json)                 // TypeError/AttributeError: a dict was required

  /** The keys of a dict, in insertion order. */
  function Keys(fields: Fields): (ks: seq<string>)
  {
    if fields == [] then [] else [fields[0].0] + Keys(fields[1..])
  }

  /** `d.get(key)`: the value stored under key, if any. */
  function Lookup(fields: Fields, key: string): (r: Option<Json>)
    ensures r.Some? <==> key in Keys(fields)
  {
    if fields == [] then None
    else if fields[0].0 == key then Some(fields[0].1)
    else Lookup(fields[1..], key)
  }

  /** `d.get(key, default)`. */
  function GetOr(fields: Fields, key: string, default: Json): Json
  {
    match Lookup(fields, key)
    case Some(v) => v
    case None => default
  }

  /** `{k: v for k, v in d.items() if k != key}`: the dict without one key. */
  function WithoutKey(fields: Fields, key: string): (r: Fields)
    ensures key !in Keys(r)
    ensures forall k :: k != key ==> Lookup(r, k) == Lookup(fields, k)
    ensures key !in Keys(fields) ==> r == fields
  {
    if fields == [] then []
    else if fields[0].0 == key then WithoutKey(fields[1..], key)
    else
      var rest := WithoutKey(fields[1..], key);
      assert ([fields[0]] + rest)[1..] == rest;
      [fields[0]] + rest
  }

  /** `for x in v`: a list yields its elements, a dict its keys, a string its
      one-character strings; every other value raises TypeError (None). */
  function Iterate(v: Json): Option<seq<Json>>
  {
    match v
    case Array(xs) => Some(xs)
    case Object(fs) => Some(seq(|fs|, i requires 0 <= i < |fs| => Str(fs[i].0)))
    case Str(s) => Some(seq(|s|, i requires 0 <= i < |s| => Str([s[i]])))
    case _ => None
  }

  /** Python truthiness of a decoded JSON value. */
  predicate Truthy(v: Json)
  {
    match v
    case Null => false
    case Bool(b) => b
    case Num(r) => r != 0.0
    case Str(s) => s != []
    case Array(xs) => xs != []
    case Object(fs) => fs != []
  }

  /** A value Python treats as true and can iterate over yields at least one element. */
  lemma TruthyIterationNonEmpty(v: Json)
    requires Truthy(v) && Iterate(v).Some?
    ensures Iterate(v).value != []
  {
    match v
    case Object(fs) =>
      assert Iterate(v).value[0] == Str(fs[0].0);
    case Str(s) =>
      assert Iterate(v).value[0] == Str([s[0]]);
    case Array(xs) =>
  }

  function LowerChar(c: char): char
  {
    if 'A' <= c <= 'Z' then (c as int + 32) as char else c
  }

  /** `s.lower()` on the ASCII letters. */
  function Lower(s: string): (r: string)
  {
    seq(|s|, i requires 0 <= i < |s| => LowerChar(s[i]))
  }
}
