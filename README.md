# Ten-pin bowling scoring engine, modelled in Dafny

This project models the scoring engine of `TC.Bowling.Domain`. The engine is a
value-semantics component. A caller holds a `Game`, calls `Roll(pins)` once per
physical roll to get a new `Game`, and asks any `Game` for its `State` (which
roll comes next) and its `Score` (the running total, strike and spare bonuses
included).

The model follows the code as written, one module per source file:

- `Errors` (errors.dfy) holds one error kind per exception the engine throws, and the `Result` wrapper that carries it.
- `Rolls` (rolls.dfy) models `Rolls.cs`.
  - `RolledPins` is a roll of 0..10 pins.
  - `FrameScore` is the closed union `FirstRoll` / `SecondRoll` / `FinalBonusFrame`.
  - Each variant has a validating constructor and the helpers `FromFirstRoll` and `FromSecondRoll`.
  - `RolledPinsOf` gives a frame's rolls in order, and `RawScore` sums their pins.
- `Frames` (frames.dfy) models `Frame.cs`: a frame number of 1..10 and `FirstFrame`.
- `GameStates` (game_states.dfy) models `GameState.cs` as a datatype: the closed four-case state union. Every case but `Complete` carries a frame, whose number is 1..10 by its type.
- `Games` (game.dfy) models `Game.cs`.
  - The bounded constructor, and `New`.
  - `State`, derived from the frame count and the last frame only.
  - `Roll`, which appends a frame or extends the last one.
  - `Score`, a loop with an accumulator like the source's `foreach`. It is proved equal to the reference definition in `Scoring` (scoring.dfy).
- `Scoring` (scoring.dfy) defines the running score frame by frame. Each frame adds its own pins. A frame among the first nine with a raw score of 10 adds the first one (spare) or two (strike) rolls recorded in the next frame.
- `GameProperties` (properties.dfy) holds the properties that span several calls.
  - The `Consistent` invariant of every game reachable from `New()`.
  - Which rolls fail, and why.
  - How much a roll can raise the score.
  - The three places where the code departs from ordinary ten-pin rules.
- `ExampleGame` (example_game.dfy) replays the repository's example test and shows its expected states and scores.
- `CorrectedStates` (corrected_state.dfy) holds the correction described under Findings.

The engine's behaviour, as the code has it:

- State for nine frames ending in a `SecondRoll`. The new-frame case of `State` only covers fewer than nine frames. Nine frames whose ninth is a `SecondRoll` therefore have no state, and every further roll fails (`NinthFrameGap`).
- Strike followed by a strike. A strike earns only the next frame's recorded rolls. After another strike that is 10 pins, never the roll after it (`ThreeStrikes`, `StrikeBonusLooksOneFrameAhead`).
- Strike in frame 10. The second roll after it is built as a `SecondRoll`, which refuses more than ten pins in all. Only a gutter ball may follow (`FrameTenStrikeAdmitsOnlyZero`).

Further details of the code that the model keeps:

- A spare or strike in frame 10 becomes one three-roll `FinalBonusFrame` once its bonus roll is made. There is no separate variant for a two-roll final frame.
- The bonus reads only the next frame's recorded rolls. It never takes a roll from the frame after that.
- `Roll` checks the pin count before it looks at the state.

As a consequence, the code cannot finish an all-gutter game, a game of twenty 5s, or a perfect game.

## Model

| member | source | states |
|---|---|---|
| Rolls.MakeRolledPins | TC.Bowling.Domain/Rolls.cs:8-16 | a pin count is accepted exactly when it is in 0..10 and is then stored unchanged; otherwise the error is PinsOutOfRange with that count |
| Rolls.RolledPinsOf | TC.Bowling.Domain/Rolls.cs:19-94 | a FirstRoll holds exactly 1 roll, a SecondRoll 2 and a FinalBonusFrame 3, listed in the order they were rolled (first, second, third) |
| Rolls.SumPins | TC.Bowling.Domain/Rolls.cs:80 | n rolls knock down between 0 and 10·n pins |
| Rolls.RawScore | TC.Bowling.Domain/Rolls.cs:80 | a frame's raw score lies in 0..30 |
| Rolls.RawScoreIsPinTotal | TC.Bowling.Domain/Rolls.cs:19-80 | the raw score of each variant is the sum of that variant's own rolls (1, 2 or 3 of them, in order) |
| Rolls.SumPinsAppend | TC.Bowling.Domain/Rolls.cs:80 | the pin sum of two roll lists joined is the sum of their sums |
| Rolls.MakeSecondRoll | TC.Bowling.Domain/Rolls.cs:28-39 | two rolls make a SecondRoll exactly when they total at most 10 pins, in every frame; otherwise SecondRollOverTen |
| Rolls.FromFirstRoll | TC.Bowling.Domain/Rolls.cs:41-44 | the new frame keeps the first roll and adds the new roll second; it fails exactly when the two exceed 10 pins |
| Rolls.MakeFinalBonusFrame | TC.Bowling.Domain/Rolls.cs:54-67 | three rolls make a FinalBonusFrame exactly when the first is 10 or the first two total 10; otherwise NotAFinalBonusFrame |
| Rolls.FromSecondRoll | TC.Bowling.Domain/Rolls.cs:69-75 | the new frame keeps both rolls in order and adds the new roll third; it succeeds exactly after a strike or a frame total of 10 |
| Rolls.SecondRollScore | TC.Bowling.Domain/Rolls.cs:32-35 | a valid SecondRoll scores at most 10, so a score of 10 or more is exactly 10 |
| Frames.MakeFrame | TC.Bowling.Domain/Frame.cs:7-21 | a frame number is accepted exactly when it is in 1..10 and is then stored unchanged; numbers below 1 or above 10 give FrameOutOfRange |
| Frames.FirstFrame | TC.Bowling.Domain/Frame.cs:23 | the first frame is the validated frame number 1 |
| Scoring.Bonus | TC.Bowling.Domain/Game.cs:113-146 | a frame earns a bonus only when it is among the first nine, scores 10 and has a next frame; the bonus is at most 10 pins per roll it earns |
| Scoring.LeadingPins | TC.Bowling.Domain/Game.cs:131-138 | the first recorded roll of the next frame, and its first two, are the values of the bonus switch's arms |
| Games.MakeGame | TC.Bowling.Domain/Game.cs:9-20 | a game is built exactly when it has at most 10 frames, and keeps them; otherwise TooManyFrames |
| Games.New | TC.Bowling.Domain/Game.cs:154 | a new game has no frames and its state is FirstRoll of frame 1 |
| Games.State | TC.Bowling.Domain/Game.cs:22-53 | a derived state means: FirstRoll of frame count+1 after nothing, a closed frame or a strike; SecondRoll of frame count after a first roll; FinalBonusRoll of frame 10 after a frame-10 SecondRoll of 10; Complete only at 10 frames not ending in a first roll; failures are UnexpectedFrame or a frame out of range |
| Games.Roll | TC.Bowling.Domain/Game.cs:55-99 | a successful roll had 0..10 pins on a game that was not complete; from a FirstRoll state it appends exactly one one-roll frame, otherwise it adds the roll to the last frame; all earlier frames are unchanged and there are never more than 10 frames |
| Games.BonusFromNext | TC.Bowling.Domain/Game.cs:131-143 | the bonus switch takes exactly the first one or two recorded rolls of the next frame, or all of them when it has fewer |
| Games.Score | TC.Bowling.Domain/Game.cs:101-152 | the loop returns the reference running score (raw scores plus one-frame-lookahead bonuses), or UnexpectedFrameScore exactly when a FinalBonusFrame scoring 10 stands among the first nine frames |
| GameProperties.RollPreservesConsistency | TC.Bowling.Domain/Game.cs:82-94 | Roll keeps a game consistent: at most 10 valid frames, every frame but the last a SecondRoll or a strike, a FinalBonusFrame only as frame 10 |
| GameProperties.PlayPreservesConsistency | TC.Bowling.Domain/Game.cs:55-99 | any sequence of rolls from a consistent game reaches only consistent games |
| GameProperties.ReachableGamesAreConsistent | TC.Bowling.Domain/Game.cs:154 | every game reached by rolling from New() is consistent |
| GameProperties.ConsistentGamesAreScorable | TC.Bowling.Domain/Game.cs:116-124 | on a consistent game Score never takes its throwing arm |
| GameProperties.StateFailsOnlyAfterNinthSecondRoll | TC.Bowling.Domain/Game.cs:22-53 | on a consistent game State fails exactly when there are nine frames and the ninth is a SecondRoll, and then with UnexpectedFrame |
| GameProperties.RollErrorOrder | TC.Bowling.Domain/Game.cs:55-99 | an out-of-range pin count fails with PinsOutOfRange on every game, complete or not; an in-range roll on a complete game fails with GameFinished; a State failure is passed on; StateMismatch never occurs |
| GameProperties.RollFailures | TC.Bowling.Domain/Game.cs:55-99 | on a consistent game an in-range roll fails exactly when the game is complete, at the ninth-frame gap, or when a second roll would exceed 10 pins; no other error occurs |
| GameProperties.FrameTenStrikeAdmitsOnlyZero | TC.Bowling.Domain/Game.cs:60-66 | after a strike in frame 10 a roll is accepted exactly when it is 0 |
| GameProperties.NinthFrameGap | TC.Bowling.Domain/Game.cs:28-52 | eighteen gutter balls are accepted, and the nineteenth roll then fails whatever its pin count |
| GameProperties.AppendRaisesScore | TC.Bowling.Domain/Game.cs:101-152 | appending a one-roll frame of p pins raises the running score by at least p and at most 2·p |
| GameProperties.ExtendRaisesScore | TC.Bowling.Domain/Game.cs:101-152 | adding a roll of p pins to the last frame raises the running score by at least p and at most 2·p |
| GameProperties.RollRaisesScore | TC.Bowling.Domain/Game.cs:101-152 | a roll of p pins raises the running score by at least p and at most 2·p |
| GameProperties.StrikeBonusLooksOneFrameAhead | TC.Bowling.Domain/Game.cs:133 | a strike followed by a one-roll frame earns exactly that roll, whatever follows it |
| GameProperties.ThreeStrikes | TC.Bowling.Domain/Game.cs:113-146 | three strikes are accepted as three one-roll frames and score 50 |
| GameProperties.RollNeverGoesBackAFrame | TC.Bowling.Domain/Game.cs:22-53 | the frame number a state names never decreases across a roll |
| GameProperties.StateTable | TC.Bowling.Domain/Game.cs:22-53 | each row of the state derivation table, for games of at most 10 frames |
| ExampleGame.ExampleOpenFrames | TC.Bowling.Tests/Tests.cs:9-19 | each game reached is scorable, so `Score` returns `TotalScore`; rolls 1,4 score 5 with state FirstRoll of frame 2; a further 4 scores 9 with state SecondRoll of frame 2; a further 5 scores 14 |
| ExampleGame.ExampleSpares | TC.Bowling.Tests/Tests.cs:22-29 | each game reached is scorable; the test's spares score 24, then 34 once the next roll adds its bonus, then 39 |
| ExampleGame.ExampleStrike | TC.Bowling.Tests/Tests.cs:32-36 | the game reached is scorable, and a strike followed by 0 and 1 brings the score to 61 |
| ExampleGame.ExampleBonusRollState | TC.Bowling.Tests/Tests.cs:45-49 | a spare in frame 10 leads to state FinalBonusRoll of frame 10 |
| ExampleGame.ExampleFinalScore | TC.Bowling.Tests/Tests.cs:51-53 | after the bonus roll the game is Complete, scorable and scores 133 |
| CorrectedStates.CorrectedState | TC.Bowling.Domain/Game.cs:22-53 | the state derivation with the new-frame guard at fewer than ten frames; a state is defined only for at most 10 frames |
| CorrectedStates.CorrectedStateIsTotal | TC.Bowling.Domain/Game.cs:28 | with the corrected guard every consistent game has a state |
| CorrectedStates.CorrectedStateOnlyClosesTheGap | TC.Bowling.Domain/Game.cs:28 | the correction agrees with State wherever State is defined, and after nine frames ending in a SecondRoll it opens frame 10 |

## Left out

- Exceptions become error kinds of `Errors.Error`. Their types and message texts are not modelled.
- `IImmutableList`, `Add`, `SetItem`, `Select`, `Sum` and `LastOrDefault` become operations on `seq`.
- C# record equality and `with`-copies become Dafny datatype values. The original `Game` stays unchanged because it is a value.
- `with` at Game.cs:88-94 bypasses the constructor's bound. The model therefore proves the 10-frame bound (`Games.Roll`, `GameProperties.RollPreservesConsistency`) instead of re-checking it.
- `FrameScore` is a plain datatype, so its constructors do not check anything. The checks live in `MakeSecondRoll`, `MakeFinalBonusFrame` and the `From…` helpers, and `Rolls.Valid` states them. Properties of games assume `Valid` frames through `Consistent`.
- The shared `FrameScore` base constructor refuses fewer than one or more than three rolls. No variant can reach that error, so it is stated as the contract of `RolledPinsOf` rather than as an error kind.
- Roll's helper for the second roll, and its helper for the bonus roll, call `Last()`. `Last()` fails on an empty list. The model requires a non-empty list there, because both helpers are only reached in states that have a last frame.
- Some arms of the source's switches cannot be reached. They are left out, and Dafny's exhaustive `match` stands in for them:
  - Roll's catch-all arm (Game.cs:96-97).
  - Score's catch-all bonus arm (Game.cs:140-142).
- Games.Score: the C# property returns a plain integer or throws. The model returns a `Result`, and `ConsistentGamesAreScorable` shows that the failure cannot happen on reachable games.
- `TC.Bowling/Class1.cs` is not part of this model. It is an abandoned draft that does not compile.
- The test file is not modelled as code. Only its expected values are used, as lemmas in `ExampleGame`.
- Integer overflow is not modelled. All counts stay below 400.

## Findings

| source | as written | input that shows it | evidently intended | confidence | as-written member | corrected member |
|---|---|---|---|---|---|---|
| TC.Bowling.Domain/Game.cs:28 | a new frame is opened after a closed frame only while fewer than 9 frames exist | eighteen rolls of 0, then any roll: `State` has no arm for nine frames ending in a SecondRoll, so the roll fails | `< 10`, so that frame 10 opens after a closed ninth frame, as it already does after a ninth-frame strike (line 36) | high; not executed | GameProperties.NinthFrameGap | CorrectedStates.CorrectedStateOnlyClosesTheGap |

The rest of the model keeps the guard as written, because it models the code.
`CorrectedStates.CorrectedStateIsTotal` proves that the corrected guard gives
every consistent game a state. `CorrectedStates.CorrectedStateOnlyClosesTheGap`
proves that the correction changes nothing else.
