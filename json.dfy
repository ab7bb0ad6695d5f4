/**
 * The decoded body of an HTTP response, as `response.json()` hands it to the
 * adapters, and the few Python operations the adapters apply to it:
 * subscripting `d[k]`, `d.get(k, default)`, iteration with `for`, truthiness,
 * and construction of a dataclass with `Cls(**d)`.
 *
 * An object keeps its keys in document order (Python dicts iterate in insertion
 * order). JSON objects with repeated keys are outside the model: lookups take
 * the first entry with the key.
 */
module Json {
  import opened Wrappers

  datatype Json =
    | JNull
    | JBool(b: bool)
    | JNum(n: real)
    | JStr(s: string)
    | JArr(items: seq<Json>)
    | JObj(fields: seq<(string, Json)>)

  /** The Python exceptions a malformed body can raise inside the adapters. */
  datatype PyError =
    | KeyError(key: string)   // `d[k]` on a dict without `k`, or `d.pop(k)` without default
    | TypeError               // subscripting a non-dict, iterating a scalar, a bad `Cls(**d)`
    | AttributeError          // `x.get(...)` on something that is not a dict

  /** The set of keys of an object's entries. */
  function KeySet(fields: seq<(string, Json)>): set<string> {
    set i | 0 <= i < |fields| :: fields[i].0
  }

  /** The value of the first entry whose key is `key`, if any. */
  function Lookup(fields: seq<(string, Json)>, key: string): (r: Option<Json>)
    ensures r.None? <==> key !in KeySet(fields)
    ensures r.Some? ==> exists i :: 0 <= i < |fields| && fields[i] == (key, r.value)
  {
    if |fields| == 0 then None
    else if fields[0].0 == key then Some(fields[0].1)
    else
      var r := Lookup(fields[1..], key);
      assert KeySet(fields) == {fields[0].0} + KeySet(fields[1..]) by {
        forall k | k in KeySet(fields) ensures k in {fields[0].0} + KeySet(fields[1..]) {
          var i :| 0 <= i < |fields| && fields[i].0 == k;
          if i > 0 { assert fields[1..][i - 1].0 == k; }
        }
        forall k | k in KeySet(fields[1..]) ensures k in KeySet(fields) {
          var i :| 0 <= i < |fields[1..]| && fields[1..][i].0 == k;
          assert fields[i + 1].0 == k;
        }
      }
      if r.Some? then
        var i :| 0 <= i < |fields[1..]| && fields[1..][i] == (key, r.value);
        assert fields[i + 1] == (key, r.value);
        r
      else r
  }

  /** Python `v[key]` with a string key. */
  function Subscript(v: Json, key: string): (r: Result<Json, PyError>)
    ensures r.Success? <==> v.JObj? && key in KeySet(v.fields)
    ensures r.Failure? ==> r.error == (if v.JObj? then KeyError(key) else TypeError)
    ensures r.Success? ==> Lookup(v.fields, key) == Some(r.value)
  {
    match v
    case JObj(fs) =>
      (match Lookup(fs, key)
       case Some(x) => Success(x)
       case None => Failure(KeyError(key)))
    case _ => Failure(TypeError)
  }

  /** Python `v.get(key, default)`. */
  function GetOr(v: Json, key: string, default: Json): (r: Result<Json, PyError>)
    ensures r.Success? <==> v.JObj?
    ensures r.Failure? ==> r.error == AttributeError
    ensures v.JObj? && key !in KeySet(v.fields) ==> r == Success(default)
    ensures v.JObj? && key in KeySet(v.fields) ==> r == Subscript(v, key)
  {
    match v
    case JObj(fs) =>
      (match Lookup(fs, key)
       case Some(x) => Success(x)
       case None => Success(default))
    case _ => Failure(AttributeError)
  }

  /** `d.get(key, default)` on a value already known to be a dict. */
  function DictGet(v: Json, key: string, default: Json): (r: Json)
    requires v.JObj?
    ensures key !in KeySet(v.fields) ==> r == default
    ensures key in KeySet(v.fields) ==> Subscript(v, key) == Success(r)
  {
    match Lookup(v.fields, key)
    case Some(x) => x
    case None => default
  }

  /** Python truthiness: `not v` is false exactly for these values. */
  predicate Truthy(v: Json)
    ensures !Truthy(v) <==> v in {JNull, JBool(false), JNum(0.0), JStr(""), JArr([]), JObj([])}
  {
    match v
    case JNull => false
    case JBool(b) => b
    case JNum(n) => n != 0.0
    case JStr(s) => s != ""
    case JArr(xs) => xs != []
    case JObj(fs) => fs != []
  }

  /** The elements a Python `for` loop visits: list items, dict keys, string characters. */
  function Iterate(v: Json): (r: Result<seq<Json>, PyError>)
    ensures r.Failure? <==> v.JNull? || v.JBool? || v.JNum?
    ensures r.Failure? ==> r.error == TypeError
    ensures v.JArr? ==> r == Success(v.items)
    ensures v.JObj? ==> r.Success? && |r.value| == |v.fields|
                        && forall i :: 0 <= i < |v.fields| ==> r.value[i] == JStr(v.fields[i].0)
    ensures v.JStr? ==> r.Success? && |r.value| == |v.s|
                        && forall i :: 0 <= i < |v.s| ==> r.value[i] == JStr([v.s[i]])
  {
    match v
    case JArr(xs) => Success(xs)
    case JObj(fs) => Success(seq(|fs|, i requires 0 <= i < |fs| => JStr(fs[i].0)))
    case JStr(s) => Success(seq(|s|, i requires 0 <= i < |s| => JStr([s[i]])))
    case _ => Failure(TypeError)
  }

  /**
   * `Cls(**v)` for a dataclass whose fields, all without defaults, are `names`:
   * `v` must be a dict whose keys are exactly the field names; the result is
   * the field values in declaration order.
   */
  function Kwargs(v: Json, names: seq<string>): (r: Result<seq<Json>, PyError>)
    ensures r.Success? <==> v.JObj? && KeySet(v.fields) == set n | n in names
    ensures r.Failure? ==> r.error == TypeError
    ensures r.Success? ==> |r.value| == |names|
                           && forall i :: 0 <= i < |names| ==> Subscript(v, names[i]) == Success(r.value[i])
  {
    if v.JObj? && KeySet(v.fields) == set n | n in names then
      Success(seq(|names|, i requires 0 <= i < |names| => Lookup(v.fields, names[i]).value))
    else Failure(TypeError)
  }

  /** A list comprehension `[f(x) for x in xs]`: the first exception aborts it. */
  function MapAll<T>(xs: seq<Json>, f: Json -> Result<T, PyError>): (r: Result<seq<T>, PyError>)
    ensures r.Success? <==> forall i :: 0 <= i < |xs| ==> f(xs[i]).Success?
    ensures r.Success? ==> |r.value| == |xs| && forall i :: 0 <= i < |xs| ==> Success(r.value[i]) == f(xs[i])
    ensures r.Failure? ==> exists i :: 0 <= i < |xs| && f(xs[i]) == Failure(r.error)
                                      && forall j :: 0 <= j < i ==> f(xs[j]).Success?
  {
    if |xs| == 0 then Success([])
    else
      match f(xs[0])
      case Failure(e) => Failure(e)
      case Success(y) =>
        var rest := MapAll(xs[1..], f);
        if rest.Failure? then
          var i :| 0 <= i < |xs[1..]| && f(xs[1..][i]) == Failure(rest.error)
                   && forall j :: 0 <= j < i ==> f(xs[1..][j]).Success?;
          assert f(xs[i + 1]) == Failure(rest.error);
          assert forall j :: 0 <= j < i + 1 ==> f(xs[j]).Success? by {
            forall j | 0 <= j < i + 1 ensures f(xs[j]).Success? {
              if j > 0 { assert xs[j] == xs[1..][j - 1]; }
            }
          }
          Failure(rest.error)
        else
          assert forall i :: 1 <= i < |xs| ==> xs[i] == xs[1..][i - 1];
          Success([y] + rest.value)
  }
}
