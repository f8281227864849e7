/** The JSON-like documents the text model produces and the function returns. */
module Json {
  import opened Wrappers

  /** A JSON value. Objects are finite maps from key to value; arrays keep their order. */
  datatype Json =
    | Null
    | Bool(b: bool)
    | Num(n: real)
    | Str(s: string)
    | Arr(items: seq<Json>)
    | Obj(fields: map<string, Json>)

  /** `typeof v === 'object' && v !== null`: arrays and objects, the values the walk descends into. */
  predicate IsContainer(j: Json)
  {
    j.Arr? || j.Obj?
  }

  /**
   * `j[k]` on an object, `undefined` (None) when `j` is no object or lacks the key: following the
   * one-step path `[Key(k)]`, and a value strictly inside `j` when present.
   */
  function Get(j: Json, k: string): (r: Option<Json>)
    ensures r.Some? <==> j.Obj? && k in j.fields
    ensures r.Some? ==> r.value == j.fields[k] && r.value < j
    ensures r == At(j, [Key(k)])
  {
    if j.Obj? && k in j.fields then Some(j.fields[k]) else None
  }

  /** The value of a key when it is a non-empty string (a truthy string property), or None. */
  function NonEmptyString(j: Json, k: string): (r: Option<string>)
    ensures r.Some? ==> |r.value| > 0 && Get(j, k) == Some(Str(r.value))
    ensures Get(j, k).Some? && Get(j, k).value.Str? && Get(j, k).value.s != "" ==> r == Some(Get(j, k).value.s)
  {
    match Get(j, k)
    case Some(Str(s)) => if s != "" then Some(s) else None
    case _ => None
  }

  /** One step of a path into a document: an object key or an array index. */
  datatype Step = Key(name: string) | Index(i: nat)

  /** The value found by following the steps of `p` from `j`, if every step exists. */
  function At(j: Json, p: seq<Step>): Option<Json>
    decreases |p|
  {
    if p == [] then Some(j)
    else match p[0]
      case Key(k) =>
        if j.Obj? && k in j.fields then At(j.fields[k], p[1..]) else None
      case Index(i) =>
        if j.Arr? && i < |j.items| then At(j.items[i], p[1..]) else None
  }
}
