/** Stock result types, and the errors the write actions answer with. */
module Wrappers {

  datatype Option<+T> = None | Some(value: T) {
    function GetOr(default: T): T {
      if Some? then value else default
    }
  }

  datatype Result<+R, +E> = Ok(value: R) | Err(error: E)

  /** UUIDs; equality is all that matters about them. */
  type Id = nat

  /** What a write action refuses with (apps/api/errors.py). */
  datatype ActionError =
    | UnsupportedAction
    | InvalidPrecondition
    | PreconditionRequired
    | StalePrecondition
    | Forbidden
    | IllegalTransition
    | LostRace
    | NotFound
    | InvalidAssignee
  {
    /** The HTTP status that goes with the error. */
    function StatusCode(): nat {
      match this
      case UnsupportedAction | InvalidPrecondition | InvalidAssignee => 400
      case Forbidden => 403
      case NotFound => 404
      case IllegalTransition | LostRace => 409
      case StalePrecondition => 412
      case PreconditionRequired => 428
    }
  }
}
