/** The type-erased value container the blackboard stores. Only the three
    services the blackboard uses are modelled: the runtime type of the held
    value, whether it is a string, and a checked extraction as a given type. */
module SafeAny {
  import opened Results

  /** Stands for a `std::type_info`; two tags are the same type exactly when equal. */
  datatype TypeTag = StringType | Named(name: string)

  /** A held object: its runtime type and an opaque encoding of its contents. */
  datatype Value = Value(tag: TypeTag, payload: seq<int>)

  /** An `Any` is either empty (default-constructed) or holds one value. */
  datatype Any = Empty | Holding(held: Value)

  /** The runtime type of the held value; an empty container has none. */
  function TypeOf(a: Any): Option<TypeTag>
  {
    if a.Holding? then Some(a.held.tag) else None
  }

  /** The string escape hatch of the type lock looks at this predicate. */
  predicate IsString(a: Any)
  {
    TypeOf(a) == Some(StringType)
  }

  /** Why an extraction failed: the type asked for and the type held, if any. */
  datatype CastError = CastError(wanted: TypeTag, held: Option<TypeTag>)

  /** Extracts the held value as type `wanted`; succeeds only on an exact type match. */
  function Cast(a: Any, wanted: TypeTag): (r: Result<Value, CastError>)
    ensures r.Ok? <==> TypeOf(a) == Some(wanted)
    ensures r.Ok? ==> Holding(r.value) == a && r.value.tag == wanted
    ensures r.Err? ==> r.error == CastError(wanted, TypeOf(a))
  {
    match a
    case Empty => Err(CastError(wanted, None))
    case Holding(v) => if v.tag == wanted then Ok(v) else Err(CastError(wanted, Some(v.tag)))
  }
}
