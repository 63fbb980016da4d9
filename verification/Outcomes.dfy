/** Result types and error codes shared by every module (internal/pkg/apperror). */
module Outcomes {

  datatype Option<+T> = None | Some(value: T)

  /** The error codes this model distinguishes. */
  datatype Code =
    | NotFound
    | AlreadyExists
    | InvalidInput
    | InvalidState
    | Conflict
    | IdempotencyConflict
    | InternalError

  datatype Result<+T> = Ok(value: T) | Err(code: Code)

  /** UUIDs are opaque identifiers; only equality and order matter. */
  type Id = nat

  /** Instants; each module that does arithmetic on them says in which unit. */
  type Time = int

  newtype int64 = x: int | -0x8000_0000_0000_0000 <= x < 0x8000_0000_0000_0000

  const MAX_INT64: int := 0x7fff_ffff_ffff_ffff
}
