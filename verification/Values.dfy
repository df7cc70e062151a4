/** Decoded JSON values as Python holds them, with its notions of truth and equality. */
module Values {

  datatype Option<+T> = None | Some(value: T)

  /** A decoded JSON value; Int and Float are kept apart as Python keeps them apart. */
  datatype Json =
    | Null | Bool(b: bool) | Int(n: int) | Float(r: real) | Str(s: string)
    | Arr(items: seq<Json>) | Obj(fields: map<string, Json>)

  predicate Truthy(j: Json) {
    match j
    case Null => false
    case Bool(b) => b
    case Int(n) => n != 0
    case Float(r) => r != 0.0
    case Str(s) => s != ""
    case Arr(items) => items != []
    case Obj(fields) => fields != map[]
  }

  /** dict.get: an absent key reads as null. */
  function Field(fields: map<string, Json>, name: string): Json {
    if name in fields then fields[name] else Null
  }

  /** Python compares booleans, integers and floats by their numeric value. */
  function Number(j: Json): Option<real> {
    match j
    case Bool(b) => Some(if b then 1.0 else 0.0)
    case Int(n) => Some(n as real)
    case Float(r) => Some(r)
    case _ => None
  }

  /** Python's == on decoded values. */
  predicate SameValue(a: Json, b: Json)
    decreases a
  {
    if Number(a).Some? || Number(b).Some? then Number(a) == Number(b)
    else
      match (a, b)
      case (Arr(xs), Arr(ys)) => |xs| == |ys| && forall i :: 0 <= i < |xs| ==> SameValue(xs[i], ys[i])
      case (Obj(f), Obj(g)) => f.Keys == g.Keys && forall k :: k in f ==> SameValue(f[k], g[k])
      case _ => a == b
  }

  lemma {:induction false} SameAsItself(j: Json)
    ensures SameValue(j, j)
    decreases j
  {
    match j {
      case Arr(items) =>
        forall i | 0 <= i < |items| ensures SameValue(items[i], items[i]) {
          SameAsItself(items[i]);
        }
      case Obj(fields) =>
        forall k | k in fields ensures SameValue(fields[k], fields[k]) {
          SameAsItself(fields[k]);
        }
      case _ =>
    }
  }
}
