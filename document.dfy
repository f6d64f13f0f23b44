/** The parsed document a build manifest is read from: the tree of mappings,
    sequences and scalars that a YAML loader returns, and the result type used
    for construction that can fail. */
module Document {

  datatype Option<+T> = None | Some(value: T)

  /** Success carries the constructed value, Failure the reason construction stopped. */
  datatype Result<+T, +E> = Success(value: T) | Failure(error: E) {

    predicate IsFailure() {
      Failure?
    }

    function PropagateFailure<U>(): Result<U, E>
      requires Failure?
    {
      Failure(error)
    }

    function Extract(): T
      requires Success?
    {
      value
    }
  }

  /** One node of a parsed document.
      - Str: a string leaf.
      - Scalar: any other leaf (number, boolean, null, date); `text` is what
        Python's `str()` renders for it, so an unquoted `1.0` is Scalar("1.0").
      - List: a sequence, in document order.
      - Map: a mapping with string keys. */
  datatype Value =
    | Str(s: string)
    | Scalar(text: string)
    | List(items: seq<Value>)
    | Map(entries: map<string, Value>)

  /** Python's `str()` of a leaf; None for a list or a mapping, whose rendering
      starts with a bracket and so never equals a version number. */
  function LeafText(v: Value): (t: Option<string>)
    ensures t.Some? <==> v.Str? || v.Scalar?
    ensures v.Str? ==> t == Some(v.s)
    ensures v.Scalar? ==> t == Some(v.text)
  {
    match v
    case Str(s) => Some(s)
    case Scalar(text) => Some(text)
    case List(_) => None
    case Map(_) => None
  }
}
