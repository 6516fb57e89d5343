/** Game.State with its new-frame case guarded by "fewer than ten frames",
    as the strike case already is. Games.State keeps the code's guard of
    "fewer than nine", under which nine frames ending in a SecondRoll have no
    state; this module shows what the evidently intended guard changes. */
module CorrectedStates {
  import opened Errors
  import opened Rolls
  import opened Frames
  import GS = GameStates
  import opened Games
  import opened GameProperties

  /** Games.State arm for arm; only the first guard after the empty game
      differs: `count < 10` where Games.State has `count < 9`. */
  function CorrectedState(g: Game): (r: Result<GS.GameState>)
    ensures r.Ok? ==> |g.frames| <= 10
  {
    var count := |g.frames|;
    if count == 0 then
      Ok(GS.FirstRoll(FirstFrame()))
    else
      var last := g.frames[count - 1];
      if count < 10 && last.SecondRoll? then  // the one changed guard
        Ok(GS.FirstRoll(MakeFrame(count + 1).value))
      else if count == 10 && last.SecondRoll? && RawScore(last) >= 10 then
        Ok(GS.FinalBonusRoll(MakeFrame(count).value))
      else if count < 10 && last.FirstRoll? && RawScore(last) == 10 then
        Ok(GS.FirstRoll(MakeFrame(count + 1).value))
      else if count == 10 && last.FirstRoll? && RawScore(last) == 10 then
        Ok(GS.SecondRoll(MakeFrame(count).value))
      else if last.FirstRoll? then
        var frame :- MakeFrame(count);
        Ok(GS.SecondRoll(frame))
      else if count == 10 then
        Ok(GS.Complete)
      else
        Err(UnexpectedFrame)
  }

  /** The corrected state exists for every consistent game. */
  lemma CorrectedStateIsTotal(g: Game)
    requires Consistent(g)
    ensures CorrectedState(g).Ok?
  {
    var n := |g.frames|;
    if n > 0 && Last(g.frames).FinalBonusFrame? {
      assert g.frames[n - 1].FinalBonusFrame?;
    }
  }

  /** The correction changes nothing where the code's State is defined, and
      after nine frames ending in a SecondRoll it opens frame 10. */
  lemma CorrectedStateOnlyClosesTheGap(g: Game)
    ensures State(g).Ok? ==> CorrectedState(g) == State(g)
    ensures |g.frames| == 9 && Last(g.frames).SecondRoll? ==>
      State(g) == Err(UnexpectedFrame) && CorrectedState(g) == Ok(GS.FirstRoll(Frame(10)))
  {
  }
}
