/**
 * The structured values that payloads hold: what Python's `json` module
 * produces and accepts, plus `uuid.UUID` objects, which may sit in a dict but
 * which `json.dumps` refuses. Floating-point numbers are left out.
 */
module Json {
  import opened Wrappers
  import opened Uuids
  import opened Texts

  datatype Value =
    | Null
    | Bool(b: bool)
    | Num(n: int)
    | Str(s: string)
    | UuidObj(u: Uuid)
    | Arr(items: seq<Value>)
    | Obj(fields: Dict)

  type Dict = map<string, Value>

  /** `json.dumps` succeeds: no UUID object anywhere in the value. */
  predicate Serializable(v: Value) {
    match v
    case UuidObj(_) => false
    case Arr(xs) => forall i :: 0 <= i < |xs| ==> Serializable(xs[i])
    case Obj(m) => forall k :: k in m ==> Serializable(m[k])
    case _ => true
  }

  predicate SerializableDict(d: Dict) {
    forall k :: k in d ==> Serializable(d[k])
  }

  /** Python truthiness: None, False, 0, "", [] and {} are false. */
  predicate Truthy(v: Value) {
    match v
    case Null => false
    case Bool(b) => b
    case Num(n) => n != 0
    case Str(s) => s != ""
    case UuidObj(_) => true
    case Arr(xs) => xs != []
    case Obj(m) => m != map[]
  }

  /** `d.get(k)`. */
  function Get(d: Dict, k: string): (r: Option<Value>)
    ensures r.Some? <==> k in d
    ensures r.Some? ==> r.value == d[k]
  {
    if k in d then Some(d[k]) else None
  }

  /**
   * Formatting with an f-string, `f"{v}"`, of what `d.get(k)` returned.
   * Scalars print as Python prints them; the text of a list or dict is not
   * modelled and stands as a fixed marker.
   */
  function FormatValue(v: Option<Value>): (s: string)
    ensures v == None ==> s == "None"
    ensures v.Some? && v.value.Str? ==> s == v.value.s
  {
    match v
    case None => "None"
    case Some(Null) => "None"
    case Some(Bool(b)) => if b then "True" else "False"
    case Some(Num(n)) => IntText(n)
    case Some(Str(s)) => s
    case Some(UuidObj(u)) => UuidString(u)
    case Some(Arr(_)) => "[...]"
    case Some(Obj(_)) => "{...}"
  }

  /**
   * A JSON text codec: `dumps` renders a value, `loads` parses text and
   * answers None on malformed input. Both stand for Python's `json` module.
   */
  datatype Codec = Codec(dumps: Value -> string, loads: string -> Option<Value>)

  /** What the pipeline relies on: rendered values parse back, and no rendering is empty. */
  ghost predicate Lawful(c: Codec) {
    forall v :: Serializable(v) ==> c.loads(c.dumps(v)) == Some(v) && c.dumps(v) != ""
  }

  /** `json.dumps(v)`: None when it raises TypeError on a UUID object. */
  function Dumps(c: Codec, v: Value): (r: Option<string>)
    ensures r.Some? <==> Serializable(v)
  {
    if Serializable(v) then Some(c.dumps(v)) else None
  }

  /** Under a lawful codec, what `Dumps` renders parses back to the same value and is not empty. */
  lemma DumpsRoundTrip(c: Codec, v: Value)
    requires Lawful(c) && Serializable(v)
    ensures Dumps(c, v).Some? && c.loads(Dumps(c, v).value) == Some(v) && Dumps(c, v).value != ""
  {
  }
}
