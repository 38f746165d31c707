/** Small datatypes shared by the shop's modules. */
module Common {

  /** A value that may be absent (a nullable column, a lookup that finds nothing). */
  datatype Option<T> = None | Some(value: T)

  /** How an operation of the model layer ends: normally, or by raising the
      shop's ValidationError with its message. */
  datatype Status = Ok | ValidationError(message: string)

  /** The message both stock guards raise. */
  const InsufficientStock := "Insufficient quantity in stock."
}
