/**
 * Parsed JSON values as the extractor sees them after `json.loads`, Python's
 * truthiness on them, `dict.get`, and the bundle of foreign string functions
 * (the `json` module, `hashlib`, `str`, `repr`, float formatting) that the
 * model takes as parameters instead of defining.
 */
module Json {
  import opened Wrappers

  /** A decoded JSON value. Objects are `dict`s keyed by strings. */
  datatype Json =
    | JNull
    | JBool(b: bool)
    | JNum(n: int)
    | JStr(s: string)
    | JArr(a: seq<Json>)
    | JObj(o: map<string, Json>)

  /** Python's `bool(v)`: `None`, `False`, `0`, and empty strings, lists and dicts are false. */
  predicate Truthy(v: Json) {
    match v
    case JNull => false
    case JBool(b) => b
    case JNum(n) => n != 0
    case JStr(s) => s != ""
    case JArr(a) => a != []
    case JObj(o) => o != map[]
  }

  /** A value Python can use as a `dict` key (lists and dicts cannot). */
  predicate Hashable(v: Json) {
    !v.JArr? && !v.JObj?
  }

  /** `d.get(key, default)`. */
  function GetOr(d: map<string, Json>, key: string, default: Json): (r: Json)
    ensures key in d ==> r == d[key]
    ensures key !in d ==> r == default
  {
    if key in d then d[key] else default
  }

  /** `d.get(key)`: JSON `null` and a missing key both give `None`. */
  function Get(d: map<string, Json>, key: string): Json {
    GetOr(d, key, JNull)
  }

  /** `d.get(key)` is `None` exactly when the key is missing or maps to `null`, and a truthy
      result is the stored value. */
  lemma GetNone(d: map<string, Json>, key: string)
    ensures Get(d, key) == JNull <==> key !in d || d[key] == JNull
    ensures Truthy(Get(d, key)) ==> key in d && Get(d, key) == d[key]
  {
  }

  /**
   * Functions of Python's standard library that the model does not define:
   * each is passed in and only ever applied, never inspected.
   */
  datatype Foreign = Foreign(
    dumps: Json -> string,         // json.dumps(v)
    dumpsSorted: Json -> string,   // json.dumps(v, sort_keys=True)
    dumpsIndented: Json -> string, // json.dumps(v, indent=2)
    loads: string -> Json,         // json.loads(s)
    md5Hex: string -> string,      // hashlib.md5(s.encode()).hexdigest()
    show: Json -> string,          // str(v) of a value that is not a string
    repr: Json -> string,          // repr(v)
    fixed1: (nat, nat) -> string   // f"{n / d:.1f}"
  )

  /** `str(v)`, or an f-string interpolation of `v`: a string renders as itself. */
  function Show(f: Foreign, v: Json): string {
    if v.JStr? then v.s else f.show(v)
  }
}
