/** The failures the scoring engine reports, and the wrapper that carries them.
    Each error kind stands for one exception the engine throws; the exception
    types and message texts themselves are not modelled. */
module Errors {

  datatype Error =
    | PinsOutOfRange(pins: int)      // RolledPins: fewer than 0 or more than 10 pins
    | FrameOutOfRange(number: int)   // Frame: a number outside 1..10
    | TooManyFrames(count: int)      // Game: more than 10 frames
    | SecondRollOverTen              // FrameScore.SecondRoll: two rolls above 10 pins
    | NotAFinalBonusFrame            // FrameScore.FinalBonusFrame: neither strike nor spare
    | UnexpectedFrame                // Game.State: no arm of the switch applies
    | StateMismatch                  // Game.Roll: the last frame does not fit the state
    | GameFinished                   // Game.Roll: the game is complete
    | UnexpectedFrameScore           // Game.Score: a frame with no bonus rule

  /** A value, or the error that prevented it. */
  datatype Result<+T> = Ok(value: T) | Err(error: Error) {

    predicate IsFailure() {
      Err?
    }

    function PropagateFailure<U>(): Result<U>
      requires Err?
    {
      Err(error)
    }

    function Extract(): T
      requires Ok?
    {
      value
    }
  }
}
