/** Optional values, used where the source has a nil-able result. */
module Wrappers {
  datatype Option<+T> = None | Some(value: T)
}

/** The dynamically typed values that Go passes as `interface{}`; each
    variant stands for one reflection kind the enrichment code distinguishes. */
module Values {

  datatype Val =
    | Null                                            // the nil interface
    | Str(s: string)
    | Int(i: int)
    | Bool(b: bool)
    | List(items: seq<Val>)                           // a slice of type `[]interface{}`
    | Typed(elemType: string, items: seq<Val>)        // a slice of any other element type
    | Dict(entries: map<string, Val>)                 // a string-keyed map
    | Struct(typeName: string, fields: map<string, Val>)  // "" for an anonymous struct type
    | Ref(target: Val)                                // a pointer; Ref(Null) is a nil pointer
    | Err(msg: string)                                // a value implementing `error`

  /** A Go map lookup: a missing key reads as nil, so nil does not tell a
      missing key from a stored nil; any other result is the stored value. */
  function Lookup(data: map<string, Val>, key: string): (v: Val)
    ensures v == Null <==> key !in data || data[key] == Null
    ensures v != Null ==> key in data && data[key] == v
  {
    if key in data then data[key] else Null
  }

  /** The two maps agree on every key outside `keys`. */
  ghost predicate SameExcept(a: map<string, Val>, b: map<string, Val>, keys: set<string>) {
    forall k :: k !in keys ==> (k in a <==> k in b) && (k in a ==> a[k] == b[k])
  }
}
