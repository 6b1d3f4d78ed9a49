/** Values shared by the two request handlers: optional values, results, the
    JSON-RPC error kinds a handler answers with, and the "0x" prefix helpers of
    the proxy's utility package. */
module Rpc {

  datatype Option<+T> = None | Some(value: T)

  datatype Result<+T, +E> = Ok(value: T) | Err(error: E)

  /** The error kinds a handler answers with. `Panic` stands for a Go run-time
      panic (a failed type assertion, an explicit `panic`): the request is
      aborted instead of answered, and no result is returned. */
  datatype RpcError =
    | InvalidParams(message: string)
    | CallbackError(message: string)
    | Panic(message: string)

  const HEX_PREFIX := "0x"

  predicate HasHexPrefix(s: string)
  {
    |s| >= 2 && s[..2] == HEX_PREFIX
  }

  /** Prefixes `s` with "0x" unless it already starts with it. */
  function AddHexPrefix(s: string): (r: string)
    ensures HasHexPrefix(r)
    ensures HasHexPrefix(s) ==> r == s
    ensures !HasHexPrefix(s) ==> r[2..] == s
  {
    if HasHexPrefix(s) then s else HEX_PREFIX + s
  }

  /** Drops one leading "0x" from `s`, if there is one. */
  function RemoveHexPrefix(s: string): (r: string)
    ensures HasHexPrefix(s) ==> HEX_PREFIX + r == s
    ensures !HasHexPrefix(s) ==> r == s
  {
    if HasHexPrefix(s) then s[2..] else s
  }
}
