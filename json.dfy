/** JSON-like values as the service sees them: request bodies, stored
    documents and the objects it returns. Numbers are integers; objects are
    finite maps from field names to values. */
module Json {

  datatype Option<+T> = None | Some(value: T)

  datatype Value =
    | Null
    | Bool(b: bool)
    | Num(n: int)
    | Str(s: string)
    | Arr(items: seq<Value>)
    | Obj(fields: map<string, Value>)

  /** A plain object: a document's data, a request body, a response. */
  type Record = map<string, Value>

  /** JavaScript truthiness: null, false, 0 and "" are falsy; arrays and
      objects, even empty ones, are truthy. */
  predicate Truthy(v: Value)
  {
    match v
    case Null => false
    case Bool(b) => b
    case Num(n) => n != 0
    case Str(s) => s != ""
    case Arr(_) => true
    case Obj(_) => true
  }

  /** Truthiness of the property access `o.k`: an absent field reads as
      `undefined`, which is falsy. */
  predicate TruthyField(o: Record, k: string)
  {
    k in o && Truthy(o[k])
  }

  /** `r` is the object spread `{ ...base, ...over }`: every key of either,
      the value from `over` where both have it. */
  ghost predicate SpreadOf(r: Record, base: Record, over: Record)
  {
    && r.Keys == base.Keys + over.Keys
    && (forall k :: k in over ==> r[k] == over[k])
    && (forall k :: k in base && k !in over ==> r[k] == base[k])
  }
}

