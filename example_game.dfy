/** The game played by the repository's example test (Tests.cs), replayed on
    the model: the scores and states it expects at each checkpoint. */
module ExampleGame {
  import opened Errors
  import opened Rolls
  import opened Frames
  import GS = GameStates
  import opened Scoring
  import opened Games
  import opened GameProperties

  /** The pin counts the test rolls, in order. */
  const ExampleRolls: seq<int> := [1, 4, 4, 5, 6, 4, 5, 5, 10, 0, 1, 7, 3, 6, 4, 10, 2, 8, 6]

  /** The game after the first k rolls of the test. */
  function After(k: nat): Result<Game>
    requires k <= |ExampleRolls|
  {
    Play(New(), ExampleRolls[..k])
  }

  function One(a: PinCount): FrameScore {
    FirstRoll(RolledPins(a))
  }

  function Two(a: PinCount, b: PinCount): FrameScore {
    SecondRoll(RolledPins(a), RolledPins(b))
  }

  function Three(a: PinCount, b: PinCount, c: PinCount): FrameScore {
    FinalBonusFrame(RolledPins(a), RolledPins(b), RolledPins(c))
  }

  /** A roll after a closed frame, or after a strike before frame 10, opens a new frame. */
  lemma RollOpens(g: Game, x: PinCount)
    requires |g.frames| < 9 || (|g.frames| == 9 && IsStrike(Last(g.frames)))
    requires g.frames == [] || Last(g.frames).SecondRoll? || IsStrike(Last(g.frames))
    ensures Roll(g, x) == Ok(Game(g.frames + [One(x)]))
  {
  }

  /** A roll after a first roll that is not a strike closes the frame. */
  lemma RollCloses(g: Game, a: PinCount, x: PinCount)
    requires 0 < |g.frames| <= 10 && Last(g.frames) == One(a) && a != 10 && a + x <= 10
    ensures Roll(g, x) == Ok(Game(g.frames[|g.frames| - 1 := Two(a, x)]))
  {
    RawScoreIsPinTotal(One(a));
  }

  /** A roll after a spare in frame 10 is its bonus roll. */
  lemma RollBonus(g: Game, a: PinCount, b: PinCount, x: PinCount)
    requires |g.frames| == 10 && Last(g.frames) == Two(a, b) && a + b == 10
    ensures Roll(g, x) == Ok(Game(g.frames[9 := Three(a, b, x)]))
  {
    RawScoreIsPinTotal(Two(a, b));
  }

  /** One further roll of the test extends the game played so far. */
  lemma PlayStep(k: nat, g: Game, h: Game)
    requires k < |ExampleRolls|
    requires After(k) == Ok(g) && Roll(g, ExampleRolls[k]) == Ok(h)
    ensures After(k + 1) == Ok(h)
  {
    PlaySnoc(New(), ExampleRolls[..k], ExampleRolls[k]);
    assert ExampleRolls[..k] + [ExampleRolls[k]] == ExampleRolls[..k + 1];
  }

  /** The game after roll 1 of the test. */
  lemma AfterRollOne()
    ensures After(1) == Ok(Game([One(1)]))
  {
    var g := New();
    assert ExampleRolls[..0] == [];
    var h := Game([One(1)]);
    RollOpens(g, 1);
    assert g.frames + [One(1)] == h.frames;
    PlayStep(0, g, h);
  }

  /** The game after roll 2 of the test. */
  lemma AfterRollTwo()
    ensures After(2) == Ok(Game([Two(1, 4)]))
  {
    AfterRollOne();
    var g := Game([One(1)]);
    var h := Game([Two(1, 4)]);
    RollCloses(g, 1, 4);
    assert g.frames[0 := Two(1, 4)] == h.frames;
    PlayStep(1, g, h);
  }

  /** The game after roll 3 of the test. */
  lemma AfterRollThree()
    ensures After(3) == Ok(Game([Two(1, 4), One(4)]))
  {
    AfterRollTwo();
    var g := Game([Two(1, 4)]);
    var h := Game([Two(1, 4), One(4)]);
    RollOpens(g, 4);
    assert g.frames + [One(4)] == h.frames;
    PlayStep(2, g, h);
  }

  /** The game after roll 4 of the test. */
  lemma AfterRollFour()
    ensures After(4) == Ok(Game([Two(1, 4), Two(4, 5)]))
  {
    AfterRollThree();
    var g := Game([Two(1, 4), One(4)]);
    var h := Game([Two(1, 4), Two(4, 5)]);
    RollCloses(g, 4, 5);
    assert g.frames[1 := Two(4, 5)] == h.frames;
    PlayStep(3, g, h);
  }

  /** The game after roll 5 of the test. */
  lemma AfterRollFive()
    ensures After(5) == Ok(Game([Two(1, 4), Two(4, 5), One(6)]))
  {
    AfterRollFour();
    var g := Game([Two(1, 4), Two(4, 5)]);
    var h := Game([Two(1, 4), Two(4, 5), One(6)]);
    RollOpens(g, 6);
    assert g.frames + [One(6)] == h.frames;
    PlayStep(4, g, h);
  }

  /** The game after roll 6 of the test. */
  lemma AfterRollSix()
    ensures After(6) == Ok(Game([Two(1, 4), Two(4, 5), Two(6, 4)]))
  {
    AfterRollFive();
    var g := Game([Two(1, 4), Two(4, 5), One(6)]);
    var h := Game([Two(1, 4), Two(4, 5), Two(6, 4)]);
    RollCloses(g, 6, 4);
    assert g.frames[2 := Two(6, 4)] == h.frames;
    PlayStep(5, g, h);
  }

  /** The game after roll 7 of the test. */
  lemma AfterRollSeven()
    ensures After(7) == Ok(Game([Two(1, 4), Two(4, 5), Two(6, 4), One(5)]))
  {
    AfterRollSix();
    var g := Game([Two(1, 4), Two(4, 5), Two(6, 4)]);
    var h := Game([Two(1, 4), Two(4, 5), Two(6, 4), One(5)]);
    RollOpens(g, 5);
    assert g.frames + [One(5)] == h.frames;
    PlayStep(6, g, h);
  }

  /** The game after roll 8 of the test. */
  lemma AfterRollEight()
    ensures After(8) == Ok(Game([Two(1, 4), Two(4, 5), Two(6, 4), Two(5, 5)]))
  {
    AfterRollSeven();
    var g := Game([Two(1, 4), Two(4, 5), Two(6, 4), One(5)]);
    var h := Game([Two(1, 4), Two(4, 5), Two(6, 4), Two(5, 5)]);
    RollCloses(g, 5, 5);
    assert g.frames[3 := Two(5, 5)] == h.frames;
    PlayStep(7, g, h);
  }

  /** The game after roll 9 of the test. */
  lemma AfterRollNine()
    ensures After(9) == Ok(Game([Two(1, 4), Two(4, 5), Two(6, 4), Two(5, 5), One(10)]))
  {
    AfterRollEight();
    var g := Game([Two(1, 4), Two(4, 5), Two(6, 4), Two(5, 5)]);
    var h := Game([Two(1, 4), Two(4, 5), Two(6, 4), Two(5, 5), One(10)]);
    RollOpens(g, 10);
    assert g.frames + [One(10)] == h.frames;
    PlayStep(8, g, h);
  }

  /** The game after roll 10 of the test. */
  lemma AfterRollTen()
    ensures After(10) == Ok(Game([Two(1, 4), Two(4, 5), Two(6, 4), Two(5, 5), One(10), One(0)]))
  {
    AfterRollNine();
    var g := Game([Two(1, 4), Two(4, 5), Two(6, 4), Two(5, 5), One(10)]);
    var h := Game([Two(1, 4), Two(4, 5), Two(6, 4), Two(5, 5), One(10), One(0)]);
    RollOpens(g, 0);
    assert g.frames + [One(0)] == h.frames;
    PlayStep(9, g, h);
  }

  /** The game after roll 11 of the test. */
  lemma AfterRollEleven()
    ensures After(11) == Ok(Game([Two(1, 4), Two(4, 5), Two(6, 4), Two(5, 5), One(10), Two(0, 1)]))
  {
    AfterRollTen();
    var g := Game([Two(1, 4), Two(4, 5), Two(6, 4), Two(5, 5), One(10), One(0)]);
    var h := Game([Two(1, 4), Two(4, 5), Two(6, 4), Two(5, 5), One(10), Two(0, 1)]);
    RollCloses(g, 0, 1);
    assert g.frames[5 := Two(0, 1)] == h.frames;
    PlayStep(10, g, h);
  }

  /** The game after roll 12 of the test. */
  lemma AfterRollTwelve()
    ensures After(12) == Ok(Game([Two(1, 4), Two(4, 5), Two(6, 4), Two(5, 5), One(10), Two(0, 1), One(7)]))
  {
    AfterRollEleven();
    var g := Game([Two(1, 4), Two(4, 5), Two(6, 4), Two(5, 5), One(10), Two(0, 1)]);
    var h := Game([Two(1, 4), Two(4, 5), Two(6, 4), Two(5, 5), One(10), Two(0, 1), One(7)]);
    RollOpens(g, 7);
    assert g.frames + [One(7)] == h.frames;
    PlayStep(11, g, h);
  }

  /** The game after roll 13 of the test. */
  lemma AfterRollThirteen()
    ensures After(13) == Ok(Game([Two(1, 4), Two(4, 5), Two(6, 4), Two(5, 5), One(10), Two(0, 1), Two(7, 3)]))
  {
    AfterRollTwelve();
    var g := Game([Two(1, 4), Two(4, 5), Two(6, 4), Two(5, 5), One(10), Two(0, 1), One(7)]);
    var h := Game([Two(1, 4), Two(4, 5), Two(6, 4), Two(5, 5), One(10), Two(0, 1), Two(7, 3)]);
    RollCloses(g, 7, 3);
    assert g.frames[6 := Two(7, 3)] == h.frames;
    PlayStep(12, g, h);
  }

  /** The game after roll 14 of the test. */
  lemma AfterRollFourteen()
    ensures After(14) == Ok(Game([Two(1, 4), Two(4, 5), Two(6, 4), Two(5, 5), One(10), Two(0, 1), Two(7, 3), One(6)]))
  {
    AfterRollThirteen();
    var g := Game([Two(1, 4), Two(4, 5), Two(6, 4), Two(5, 5), One(10), Two(0, 1), Two(7, 3)]);
    var h := Game([Two(1, 4), Two(4, 5), Two(6, 4), Two(5, 5), One(10), Two(0, 1), Two(7, 3), One(6)]);
    RollOpens(g, 6);
    assert g.frames + [One(6)] == h.frames;
    PlayStep(13, g, h);
  }

  /** The game after roll 15 of the test. */
  lemma AfterRollFifteen()
    ensures After(15) == Ok(Game([Two(1, 4), Two(4, 5), Two(6, 4), Two(5, 5), One(10), Two(0, 1), Two(7, 3), Two(6, 4)]))
  {
    AfterRollFourteen();
    var g := Game([Two(1, 4), Two(4, 5), Two(6, 4), Two(5, 5), One(10), Two(0, 1), Two(7, 3), One(6)]);
    var h := Game([Two(1, 4), Two(4, 5), Two(6, 4), Two(5, 5), One(10), Two(0, 1), Two(7, 3), Two(6, 4)]);
    RollCloses(g, 6, 4);
    assert g.frames[7 := Two(6, 4)] == h.frames;
    PlayStep(14, g, h);
  }

  /** The game after roll 16 of the test. */
  lemma AfterRollSixteen()
    ensures After(16) == Ok(Game([Two(1, 4), Two(4, 5), Two(6, 4), Two(5, 5), One(10), Two(0, 1), Two(7, 3), Two(6, 4), One(10)]))
  {
    AfterRollFifteen();
    var g := Game([Two(1, 4), Two(4, 5), Two(6, 4), Two(5, 5), One(10), Two(0, 1), Two(7, 3), Two(6, 4)]);
    var h := Game([Two(1, 4), Two(4, 5), Two(6, 4), Two(5, 5), One(10), Two(0, 1), Two(7, 3), Two(6, 4), One(10)]);
    RollOpens(g, 10);
    assert g.frames + [One(10)] == h.frames;
    PlayStep(15, g, h);
  }

  /** The game after roll 17 of the test. */
  lemma AfterRollSeventeen()
    ensures After(17) == Ok(Game([Two(1, 4), Two(4, 5), Two(6, 4), Two(5, 5), One(10), Two(0, 1), Two(7, 3), Two(6, 4), One(10), One(2)]))
  {
    AfterRollSixteen();
    var g := Game([Two(1, 4), Two(4, 5), Two(6, 4), Two(5, 5), One(10), Two(0, 1), Two(7, 3), Two(6, 4), One(10)]);
    var h := Game([Two(1, 4), Two(4, 5), Two(6, 4), Two(5, 5), One(10), Two(0, 1), Two(7, 3), Two(6, 4), One(10), One(2)]);
    RollOpens(g, 2);
    assert g.frames + [One(2)] == h.frames;
    PlayStep(16, g, h);
  }

  /** The game after roll 18 of the test. */
  lemma AfterRollEighteen()
    ensures After(18) == Ok(Game([Two(1, 4), Two(4, 5), Two(6, 4), Two(5, 5), One(10), Two(0, 1), Two(7, 3), Two(6, 4), One(10), Two(2, 8)]))
  {
    AfterRollSeventeen();
    var g := Game([Two(1, 4), Two(4, 5), Two(6, 4), Two(5, 5), One(10), Two(0, 1), Two(7, 3), Two(6, 4), One(10), One(2)]);
    var h := Game([Two(1, 4), Two(4, 5), Two(6, 4), Two(5, 5), One(10), Two(0, 1), Two(7, 3), Two(6, 4), One(10), Two(2, 8)]);
    RollCloses(g, 2, 8);
    assert g.frames[9 := Two(2, 8)] == h.frames;
    PlayStep(17, g, h);
  }

  /** The game after roll 19 of the test. */
  lemma AfterRollNineteen()
    ensures After(19) == Ok(Game([Two(1, 4), Two(4, 5), Two(6, 4), Two(5, 5), One(10), Two(0, 1), Two(7, 3), Two(6, 4), One(10), Three(2, 8, 6)]))
  {
    AfterRollEighteen();
    var g := Game([Two(1, 4), Two(4, 5), Two(6, 4), Two(5, 5), One(10), Two(0, 1), Two(7, 3), Two(6, 4), One(10), Two(2, 8)]);
    var h := Game([Two(1, 4), Two(4, 5), Two(6, 4), Two(5, 5), One(10), Two(0, 1), Two(7, 3), Two(6, 4), One(10), Three(2, 8, 6)]);
    RollBonus(g, 2, 8, 6);
    assert g.frames[9 := Three(2, 8, 6)] == h.frames;
    PlayStep(18, g, h);
  }
  /** Every game the test reaches is scorable, so its Score is TotalScore. */
  lemma AfterIsScorable(k: nat)
    requires k <= |ExampleRolls| && After(k).Ok?
    ensures Scorable(After(k).value.frames)
  {
    ReachableGamesAreConsistent(ExampleRolls[..k]);
    ConsistentGamesAreScorable(After(k).value);
  }

  /** The first two frames: scores 5, 9 and 14, and the state after each roll. */
  lemma ExampleOpenFrames()
    ensures After(2).Ok? && Scorable(After(2).value.frames) && TotalScore(After(2).value.frames) == 5
    ensures State(After(2).value) == Ok(GS.FirstRoll(Frame(2)))
    ensures After(3).Ok? && Scorable(After(3).value.frames) && TotalScore(After(3).value.frames) == 9
    ensures State(After(3).value) == Ok(GS.SecondRoll(Frame(2)))
    ensures After(4).Ok? && Scorable(After(4).value.frames) && TotalScore(After(4).value.frames) == 14
  {
    AfterRollTwo();
    AfterRollThree();
    AfterRollFour();
    AfterIsScorable(2);
    AfterIsScorable(3);
    AfterIsScorable(4);
  }

  /** Two spares: 24 after the first, 34 once the next roll adds its bonus, then 39. */
  lemma ExampleSpares()
    ensures After(6).Ok? && Scorable(After(6).value.frames) && TotalScore(After(6).value.frames) == 24
    ensures After(7).Ok? && Scorable(After(7).value.frames) && TotalScore(After(7).value.frames) == 34
    ensures After(8).Ok? && Scorable(After(8).value.frames) && TotalScore(After(8).value.frames) == 39
  {
    AfterRollSix();
    AfterRollSeven();
    AfterRollEight();
    AfterIsScorable(6);
    AfterIsScorable(7);
    AfterIsScorable(8);
    LeadingPins(One(5));
    LeadingPins(Two(5, 5));
    assert ScoreOfFirst([Two(1, 4), Two(4, 5), Two(6, 4), One(5)], 3) == 29;
    assert ScoreOfFirst([Two(1, 4), Two(4, 5), Two(6, 4), Two(5, 5)], 3) == 29;
  }

  /** A strike followed by 0 and 1: 61. */
  lemma ExampleStrike()
    ensures After(11).Ok? && Scorable(After(11).value.frames) && TotalScore(After(11).value.frames) == 61
  {
    AfterRollEleven();
    AfterIsScorable(11);
    var frames := [Two(1, 4), Two(4, 5), Two(6, 4), Two(5, 5), One(10), Two(0, 1)];
    LeadingPins(Two(0, 1));
    assert ScoreOfFirst(frames, 2) == 14;
    assert ScoreOfFirst(frames, 4) == 49;
    assert ScoreOfFirst(frames, 5) == 60;
  }

  /** Frame 10 is a spare, so the state asks for its bonus roll. */
  lemma ExampleBonusRollState()
    ensures After(18).Ok? && State(After(18).value) == Ok(GS.FinalBonusRoll(Frame(10)))
  {
    AfterRollEighteen();
    RawScoreIsPinTotal(Two(2, 8));
  }

  /** The frames of the finished example game. */
  const FinishedFrames: seq<FrameScore> :=
    [Two(1, 4), Two(4, 5), Two(6, 4), Two(5, 5), One(10), Two(0, 1), Two(7, 3), Two(6, 4), One(10), Three(2, 8, 6)]

  /** The first five finished frames score 60. */
  lemma FinishedFramesScoreToFive()
    ensures ScoreOfFirst(FinishedFrames, 5) == 60
  {
    LeadingPins(Two(0, 1));
    assert ScoreOfFirst(FinishedFrames, 2) == 14;
    assert ScoreOfFirst(FinishedFrames, 4) == 49;
  }

  /** The first nine finished frames score 117. */
  lemma FinishedFramesScoreToNine()
    ensures ScoreOfFirst(FinishedFrames, 9) == 117
  {
    FinishedFramesScoreToFive();
    LeadingPins(Three(2, 8, 6));
    assert ScoreOfFirst(FinishedFrames, 7) == 77;
  }

  /** Only the last finished frame holds a bonus roll, so the frames are scorable. */
  lemma FinishedFramesScorable()
    ensures Scorable(FinishedFrames)
  {
    forall i: nat | i < |FinishedFrames|
      ensures !Unscorable(FinishedFrames, i)
    {
      assert i < 9 ==> !FinishedFrames[i].FinalBonusFrame?;
    }
  }

  /** The frames of the finished example game score 133. */
  lemma FinishedFramesScore()
    ensures TotalScore(FinishedFrames) == 133
  {
    FinishedFramesScoreToNine();
    RawScoreIsPinTotal(Three(2, 8, 6));
  }

  /** After the bonus roll the game is complete at 133. */
  lemma ExampleFinalScore()
    ensures After(19).Ok? && Scorable(After(19).value.frames)
    ensures TotalScore(After(19).value.frames) == 133
    ensures State(After(19).value) == Ok(GS.Complete)
  {
    AfterRollNineteen();
    FinishedFramesScorable();
    FinishedFramesScore();
    assert State(Game(FinishedFrames)) == Ok(GS.Complete);
  }
}
