/** A game: the list of frames rolled so far, the state derived from it, the
    roll transition and the running score (Game.cs). A Game is a value; every
    roll yields a new one and leaves the old one as it was. */
module Games {
  import opened Errors
  import opened Rolls
  import opened Frames
  import GS = GameStates
  import opened Scoring

  datatype Game = Game(frames: seq<FrameScore>)

  /** The validating constructor: a game holds at most ten frames. */
  function MakeGame(frames: seq<FrameScore>): (r: Result<Game>)
    ensures r.Ok? <==> |frames| <= 10
    ensures r.Ok? ==> r.value.frames == frames
    ensures r.Err? ==> r.error == TooManyFrames(|frames|)
  {
    if |frames| > 10 then Err(TooManyFrames(|frames|)) else Ok(Game(frames))
  }

  /** A game with no frames, waiting for the first roll of frame 1. */
  function New(): (g: Game)
    ensures g.frames == []
    ensures State(g) == Ok(GS.FirstRoll(FirstFrame()))
    ensures State(g).value.frame.number == 1
  {
    MakeGame([]).value
  }

  function Last(frames: seq<FrameScore>): FrameScore
    requires frames != []
  {
    frames[|frames| - 1]
  }

  predicate IsStrike(f: FrameScore) {
    f.FirstRoll? && RawScore(f) == 10
  }

  /** The state, derived from the number of frames and the last frame alone.
      Its cases are tried in order; nine frames ending in a SecondRoll match
      none of them. */
  function State(g: Game): (r: Result<GS.GameState>)
    ensures r.Ok? ==> |g.frames| <= 10
    ensures r.Ok? && r.value.FirstRoll? ==>
      r.value.frame.number == |g.frames| + 1 &&
      (g.frames == [] || Last(g.frames).SecondRoll? || IsStrike(Last(g.frames)))
    ensures r.Ok? && r.value.SecondRoll? ==>
      g.frames != [] && r.value.frame.number == |g.frames| && Last(g.frames).FirstRoll?
    ensures r.Ok? && r.value.FinalBonusRoll? ==>
      |g.frames| == 10 && r.value.frame.number == 10 &&
      Last(g.frames).SecondRoll? && RawScore(Last(g.frames)) >= 10
    ensures r.Ok? && r.value.Complete? ==>
      |g.frames| == 10 && !Last(g.frames).FirstRoll?
    ensures r.Err? ==> r.error == UnexpectedFrame || r.error.FrameOutOfRange?
  {
    var count := |g.frames|;
    if count == 0 then
      Ok(GS.FirstRoll(FirstFrame()))
    else
      var last := g.frames[count - 1];
      if count < 9 && last.SecondRoll? then
        // a new frame
        Ok(GS.FirstRoll(MakeFrame(count + 1).value))
      else if count == 10 && last.SecondRoll? && RawScore(last) >= 10 then
        // bonus roll after a strike or spare in the last frame
        Ok(GS.FinalBonusRoll(MakeFrame(count).value))
      else if count < 10 && last.FirstRoll? && RawScore(last) == 10 then
        // strike before the last frame
        Ok(GS.FirstRoll(MakeFrame(count + 1).value))
      else if count == 10 && last.FirstRoll? && RawScore(last) == 10 then
        // strike in the last frame
        Ok(GS.SecondRoll(MakeFrame(count).value))
      else if last.FirstRoll? then
        // second roll in a frame
        var frame :- MakeFrame(count);
        Ok(GS.SecondRoll(frame))
      else if count == 10 then
        Ok(GS.Complete)
      else
        Err(UnexpectedFrame)
  }

  /** The last frame with a second roll added (the local SecondRoll() of Roll). */
  function WithSecondRoll(frames: seq<FrameScore>, rolledPins: RolledPins): Result<FrameScore>
    requires frames != []
  {
    var current := Last(frames);
    if current.FirstRoll? then FromFirstRoll(current, rolledPins) else Err(StateMismatch)
  }

  /** The last frame with a third roll added (the local FinalBonusRoll() of Roll). */
  function WithBonusRoll(frames: seq<FrameScore>, rolledPins: RolledPins): Result<FrameScore>
    requires frames != []
  {
    var current := Last(frames);
    if current.SecondRoll? then FromSecondRoll(current, rolledPins) else Err(StateMismatch)
  }

  /** Records one roll: either a new frame holding just this roll is appended,
      or the last frame gains this roll; nothing else changes. */
  function Roll(g: Game, roll: int): (r: Result<Game>)
    ensures r.Ok? ==> 0 <= roll <= 10 && State(g).Ok? && !State(g).value.Complete?
    ensures r.Ok? && State(g).value.FirstRoll? ==>
      |r.value.frames| == |g.frames| + 1 &&
      r.value.frames[..|g.frames|] == g.frames &&
      r.value.frames[|g.frames|] == FirstRoll(RolledPins(roll))
    ensures r.Ok? && !State(g).value.FirstRoll? ==>
      g.frames != [] &&
      |r.value.frames| == |g.frames| &&
      r.value.frames[..|g.frames| - 1] == g.frames[..|g.frames| - 1] &&
      RolledPinsOf(Last(r.value.frames)) == RolledPinsOf(Last(g.frames)) + [RolledPins(roll)]
    ensures r.Ok? && |g.frames| <= 10 ==> |r.value.frames| <= 10
  {
    var rolledPins :- MakeRolledPins(roll);
    var state :- State(g);
    match state
    case Complete =>
      Err(GameFinished)
    case FirstRoll(_) =>
      Ok(Game(g.frames + [FirstRoll(rolledPins)]))
    case SecondRoll(_) =>
      var frame :- WithSecondRoll(g.frames, rolledPins);
      Ok(Game(g.frames[|g.frames| - 1 := frame]))
    case FinalBonusRoll(_) =>
      var frame :- WithBonusRoll(g.frames, rolledPins);
      Ok(Game(g.frames[|g.frames| - 1 := frame]))
  }

  /** The bonus a frame with a raw score of 10 takes from the next frame (the
      switch on the number of rolls to include and the next frame's kind):
      the first rollsToInclude rolls recorded there, or fewer if it has fewer. */
  function BonusFromNext(rollsToInclude: int, nextFrame: FrameScore): (bonus: int)
    requires rollsToInclude == 1 || rollsToInclude == 2
    ensures bonus == SumPins(Take(RolledPinsOf(nextFrame), rollsToInclude))
  {
    RawScoreIsPinTotal(nextFrame);
    LeadingPins(nextFrame);
    match (rollsToInclude, nextFrame)
    case (_, FirstRoll(_)) => RawScore(nextFrame)
    case (1, SecondRoll(first, _)) => first.pins
    case (1, FinalBonusFrame(first, _, _)) => first.pins
    case (2, SecondRoll(_, _)) => RawScore(nextFrame)
    case (2, FinalBonusFrame(first, second, _)) => first.pins + second.pins
  }

  /** The running score. Each frame adds its own pins; a strike or spare among
      the first nine frames adds the rolls of the next frame as a bonus: a
      strike its first two recorded rolls (its only roll if it has one), a
      spare its first roll. */
  method Score(g: Game) returns (r: Result<int>)
    ensures r == if Scorable(g.frames) then Ok(TotalScore(g.frames)) else Err(UnexpectedFrameScore)
  {
    var result := 0;
    var index := 0;
    while index < |g.frames|
      invariant 0 <= index <= |g.frames|
      invariant forall i: nat | i < index :: !Unscorable(g.frames, i)
      invariant result == ScoreOfFirst(g.frames, index)
    {
      var frame := g.frames[index];
      result := result + RawScore(frame);
      if RawScore(frame) == 10 && index < 9 {
        // bonus for a strike or spare before the final frame
        var rollsToInclude;
        match frame {
          case FirstRoll(_) => rollsToInclude := 2;
          case SecondRoll(_, _) => rollsToInclude := 1;
          case FinalBonusFrame(_, _, _) =>
            assert Unscorable(g.frames, index);
            return Err(UnexpectedFrameScore);
        }
        var nextIndex := index + 1;
        if |g.frames| > nextIndex {
          var nextFrame := g.frames[nextIndex];
          var bonus := BonusFromNext(rollsToInclude, nextFrame);
          result := result + bonus;
        }
      }
      index := index + 1;
    }
    return Ok(result);
  }
}
