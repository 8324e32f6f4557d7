/** Identifiers and the optional-value type shared by the whole model. */
module Common {

  /** A .NET `Guid`; only equality is ever used, so an integer stands for it. */
  type Guid = int

  /** The identity of one registered `Action` in the context's callback list. */
  type CallbackId = nat

  /** A reference that may be null. */
  datatype Option<+T> = None | Some(value: T)
}
