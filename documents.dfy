/** Untyped documents, as request bodies arrive and as the store keeps them, and exact-match filters. */
module Documents {
  import opened Wrappers
  import opened ObjectIds

  /**
   * A field value. `Null` is JSON null / Python None; `Oid` is a store identifier; `Other` stands
   * for every JSON value that is neither null nor a string (numbers, booleans, arrays, objects).
   */
  datatype Value = Null | Str(s: string) | Oid(id: ObjectId) | Other

  type Doc = map<string, Value>

  /** An optional string field as it is written to a document: None becomes null. */
  function OptionalValue(o: Option<string>): Value
  {
    match o
    case None => Null
    case Some(s) => Str(s)
  }

  /** The string stored under `f`, if `f` holds a string. */
  function Given(d: Doc, f: string): Option<string>
  {
    if f in d && d[f].Str? then Some(d[f].s) else None
  }

  /** A find filter: everything, or `{field: value}`. */
  datatype Filter = All | FieldEq(field: string, value: string)

  /**
   * Exact match: the field is present and holds exactly that string. A field holding null, an id or
   * any non-string value matches no string filter.
   */
  predicate Matches(filter: Filter, d: Doc)
    ensures filter.FieldEq? ==> (Matches(filter, d) <==> Given(d, filter.field) == Some(filter.value))
  {
    match filter
    case All => true
    case FieldEq(f, v) => f in d && d[f] == Str(v)
  }
}
