/**
 * Error values for the game engine.  Every `Errors.*Error()` function of the
 * source throws an exception; here each becomes a constructor of `GameError`,
 * returned inside a `Result` or an `Outcome` so that callers decide whether to
 * re-prompt.
 */
module Outcomes {

  datatype GameError =
    | BlankName                       // Errors.BlankNameError
    | InvalidFacing                   // Errors.InvalidFacingError
    | TooManyPlayers                  // Errors.TooManyPlayersError
    | AlreadyFilled                   // Errors.AlreadyFilledError()
    | AlreadyFilledAt(coord: string)  // Errors.AlreadyFilledError(string)
    | AlreadyShot                     // Errors.AlreadyShotError
    | InvalidCoordinate(example: string)  // Errors.InvalidCoOrdinateError(example)
    | BlankCoordinate                 // Errors.BlankCoOrdinateError
    | TooCloseToEdge                  // Errors.TooCloseToEdgeError
    | TooManyShips(index: int)        // Errors.TooManyShipsError(index), list-based generation
    | TooManyShots(index: int)        // Errors.TooManyShotsError(index), list-based generation
    | IndexOutOfRange                 // a .NET list index or Substring bound violation

  /** A value, or the error that the source would have thrown instead. */
  datatype Result<T> = Ok(value: T) | Err(error: GameError)

  /** Success or failure of an operation that returns nothing. */
  datatype Outcome = Pass | Fail(error: GameError)

  /** Optional value, used for input streams that may run dry. */
  datatype Option<T> = None | Some(value: T)
}
