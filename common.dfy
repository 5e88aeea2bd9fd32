/** Small wrappers shared by the model: optional values, the outcome of one
    protobuf decode attempt, how a call completes, and LINQ's Select. */
module Common {

  datatype Option<+T> = None | Some(value: T)

  /** The result of one `SerializerUtil.Deserialize` call: the decoded value,
      a `ProtoException` (the bytes do not have this format's shape), or any
      other exception, which no loader catches. */
  datatype Outcome<+T> = Parsed(value: T) | ProtoError | OtherError

  /** How a call of the save pipeline completes: normally with a value, or by
      an exception (other than `ProtoException`) escaping from it. */
  datatype Completion<+T> = Returned(value: T) | Threw

  /** Applies `g` to a decoded value and passes both failure kinds through. */
  function Then<A, B>(o: Outcome<A>, g: A -> B): (r: Outcome<B>)
    ensures r.Parsed? <==> o.Parsed?
    ensures r.ProtoError? <==> o.ProtoError?
    ensures o.Parsed? ==> r.value == g(o.value)
  {
    match o
    case Parsed(v) => Parsed(g(v))
    case ProtoError => ProtoError
    case OtherError => OtherError
  }

  /** `xs.Select(g).ToList()`: one output per input, in the same order. */
  function Select<A, B>(xs: seq<A>, g: A -> B): (ys: seq<B>)
    ensures |ys| == |xs|
    ensures forall i :: 0 <= i < |xs| ==> ys[i] == g(xs[i])
  {
    if xs == [] then [] else [g(xs[0])] + Select(xs[1..], g)
  }
}
