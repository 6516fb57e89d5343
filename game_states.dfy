/** What the next roll of a game is (GameState.cs). */
module GameStates {
  import opened Frames

  /** Exactly one of four cases; all but Complete name the frame being played. */
  datatype GameState =
    | FirstRoll(frame: Frame)
    | SecondRoll(frame: Frame)
    | FinalBonusRoll(frame: Frame)
    | Complete
}
