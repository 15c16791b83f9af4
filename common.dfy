/** Identifiers and small wrappers shared by every part of the model. */
module Common {

  datatype Option<+T> = None | Some(value: T)

  /** MongoDB ObjectIds. Each collection hands out ids by appending, so an id is an index. */
  type UserId = nat
  type DoctorId = nat
  type CallId = nat

  /** Socket.IO connection ids: generated, non-empty, so "set" is the same as "truthy". */
  type SocketId = nat

  /** The payload a token carries: `{ id, type }` as signed by `generateToken`. */
  datatype Claims = Claims(id: nat, tokenType: string)

  /** JavaScript truthiness of a string that may be `undefined`. */
  predicate Truthy(s: Option<string>) {
    s.Some? && s.value != ""
  }
}
