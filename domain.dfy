/**
 * Collaborators the domain code uses whose definitions are not part of this model:
 * the command error type, the per-entity version stamp and the active-transaction handle.
 */
module Domain {

  /**
   * The error a command returns. `BadInput` stands for `error::bad_input(..)`,
   * `Msg` for `error::msg(..)` and for any `String` error turned into an `Error` by `?`.
   * The error module is not part of this model; that both keep the message text is assumed.
   */
  datatype Error = Msg(text: string) | BadInput(text: string)

  /**
   * The version stamp of an entity of kind `T`. Its definition is not shown; the domain only
   * ever creates the default one and copies it, so it is modelled as an opaque counter.
   */
  datatype Version<T> = Version(stamp: nat)

  /** `Version::default()`, the stamp every new entity starts with. */
  function DefaultVersion<T>(): Version<T>
  {
    Version(0)
  }

  /**
   * The handle `transaction.active().get()` hands to the store's writes. It scopes writes
   * only; the model gives it no atomicity semantics and merely records it with each write.
   */
  datatype ActiveTransaction = ActiveTransaction(handle: nat)
}
