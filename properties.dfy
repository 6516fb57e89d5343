/** What holds of the games a caller can reach by rolling from Game.New():
    the shape of their frame lists, which rolls fail and why, and how each
    roll moves the running score. */
module GameProperties {
  import opened Errors
  import opened Rolls
  import opened Frames
  import GS = GameStates
  import opened Scoring
  import opened Games

  /** The shape of every game reached from New(): at most ten frames, each
      valid; every frame but the last is closed (a SecondRoll or a strike);
      a FinalBonusFrame only as frame 10. */
  predicate Consistent(g: Game) {
    && |g.frames| <= 10
    && (forall i | 0 <= i < |g.frames| :: Valid(g.frames[i]))
    && (forall i | 0 <= i < |g.frames| - 1 :: g.frames[i].SecondRoll? || IsStrike(g.frames[i]))
    && (forall i | 0 <= i < |g.frames| :: g.frames[i].FinalBonusFrame? ==> i == 9)
  }

  /** The game reached by rolling the given pin counts in order, as a caller
      chaining Roll calls does. */
  function Play(g: Game, rolls: seq<int>): Result<Game>
    decreases |rolls|
  {
    if rolls == [] then Ok(g)
    else
      var next :- Roll(g, rolls[0]);
      Play(next, rolls[1..])
  }

  /** Playing a further roll is one more Roll on the game played so far. */
  lemma {:induction false} PlaySnoc(g: Game, rolls: seq<int>, x: int)
    ensures Play(g, rolls + [x]) ==
      if Play(g, rolls).Ok? then Roll(Play(g, rolls).value, x) else Play(g, rolls)
    decreases |rolls|
  {
    if rolls == [] {
      assert rolls + [x] == [x] && [x][1..] == [];
    } else {
      assert (rolls + [x])[0] == rolls[0] && (rolls + [x])[1..] == rolls[1..] + [x];
      if Roll(g, rolls[0]).Ok? {
        PlaySnoc(Roll(g, rolls[0]).value, rolls[1..], x);
      }
    }
  }

  /** Roll keeps a game consistent. In particular it never makes an eleventh
      frame, although it bypasses the Game constructor's bound. */
  lemma RollPreservesConsistency(g: Game, roll: int)
    requires Consistent(g) && Roll(g, roll).Ok?
    ensures Consistent(Roll(g, roll).value)
  {
    var h := Roll(g, roll).value;
    var n := |g.frames|;
    var state := State(g).value;
    if state.FirstRoll? {
      assert h.frames == g.frames + [FirstRoll(RolledPins(roll))];
      forall i | 0 <= i < |h.frames| - 1
        ensures h.frames[i].SecondRoll? || IsStrike(h.frames[i])
      {
        assert h.frames[i] == g.frames[i];
      }
    } else {
      assert h.frames == g.frames[n - 1 := Last(h.frames)];
    }
  }

  /** Every game reached by playing from a consistent game is consistent. */
  lemma {:induction false} PlayPreservesConsistency(g: Game, rolls: seq<int>)
    requires Consistent(g)
    ensures Play(g, rolls).Ok? ==> Consistent(Play(g, rolls).value)
    decreases |rolls|
  {
    if rolls != [] && Roll(g, rolls[0]).Ok? {
      RollPreservesConsistency(g, rolls[0]);
      PlayPreservesConsistency(Roll(g, rolls[0]).value, rolls[1..]);
    }
  }

  /** Every game reached from New() is consistent. */
  lemma ReachableGamesAreConsistent(rolls: seq<int>)
    ensures Play(New(), rolls).Ok? ==> Consistent(Play(New(), rolls).value)
  {
    PlayPreservesConsistency(New(), rolls);
  }

  /** On a consistent game Score never takes its throwing arm: no
      FinalBonusFrame stands among the first nine frames. */
  lemma ConsistentGamesAreScorable(g: Game)
    requires Consistent(g)
    ensures Scorable(g.frames)
  {
  }

  /** On a consistent game, State fails exactly when nine frames have been
      played and the ninth is a SecondRoll: the new-frame case only covers
      fewer than nine frames. */
  lemma StateFailsOnlyAfterNinthSecondRoll(g: Game)
    requires Consistent(g)
    ensures State(g).Err? <==> |g.frames| == 9 && Last(g.frames).SecondRoll?
    ensures State(g).Err? ==> State(g).error == UnexpectedFrame
  {
    var n := |g.frames|;
    if n > 0 && Last(g.frames).FinalBonusFrame? {
      assert g.frames[n - 1].FinalBonusFrame?;
    }
  }

  /** Roll checks the pin count before it looks at the state, so a bad count
      fails even on a complete game; an in-range roll on a complete game fails
      as finished; the state and the last frame always agree, so the
      mismatch errors never occur. These hold for every game. */
  lemma RollErrorOrder(g: Game, roll: int)
    ensures !(0 <= roll <= 10) ==> Roll(g, roll) == Err(PinsOutOfRange(roll))
    ensures 0 <= roll <= 10 && State(g) == Ok(GS.Complete) ==> Roll(g, roll) == Err(GameFinished)
    ensures 0 <= roll <= 10 && State(g).Err? ==> Roll(g, roll) == Err(State(g).error)
    ensures Roll(g, roll) != Err(StateMismatch)
  {
  }

  /** On a consistent game an in-range roll fails for exactly three reasons:
      the game is complete, the ninth-frame gap, or a second roll that would
      bring the frame above ten pins. The final bonus frame is never refused,
      and no frame number ever falls out of range. */
  lemma RollFailures(g: Game, roll: int)
    requires Consistent(g) && 0 <= roll <= 10
    ensures Roll(g, roll).Err? <==>
      || State(g) == Ok(GS.Complete)
      || (|g.frames| == 9 && Last(g.frames).SecondRoll?)
      || (State(g).Ok? && State(g).value.SecondRoll? && Last(g.frames).pins.pins + roll > 10)
    ensures Roll(g, roll).Err? ==>
      Roll(g, roll).error in {GameFinished, UnexpectedFrame, SecondRollOverTen}
  {
    StateFailsOnlyAfterNinthSecondRoll(g);
    var n := |g.frames|;
    if State(g).Ok? && State(g).value.FinalBonusRoll? {
      assert Valid(g.frames[n - 1]);
      SecondRollScore(Last(g.frames));
    }
    if State(g).Ok? && State(g).value.SecondRoll? {
      RawScoreIsPinTotal(Last(g.frames));
    }
  }

  /** After a strike in frame 10 the second roll is built as a SecondRoll,
      whose ten-pin limit admits only a gutter ball. */
  lemma FrameTenStrikeAdmitsOnlyZero(g: Game, roll: int)
    requires Consistent(g) && |g.frames| == 10 && Last(g.frames) == FirstRoll(RolledPins(10))
    requires 0 <= roll <= 10
    ensures Roll(g, roll).Ok? <==> roll == 0
  {
    RollFailures(g, roll);
  }

  /** k frames of two gutter balls each. */
  function GutterFrames(k: nat): seq<FrameScore> {
    seq(k, _ => SecondRoll(RolledPins(0), RolledPins(0)))
  }

  /** n rolls of zero pins. */
  function GutterRolls(n: nat): seq<int> {
    seq(n, _ => 0)
  }

  /** A gutter ball after fewer than nine closed gutter frames opens a new frame. */
  lemma OpenGutterFrame(k: nat)
    requires k < 9
    ensures Roll(Game(GutterFrames(k)), 0) == Ok(Game(GutterFrames(k) + [FirstRoll(RolledPins(0))]))
  {
    var g := Game(GutterFrames(k));
    assert k > 0 ==> Last(g.frames).SecondRoll?;
    assert State(g).Ok? && State(g).value.FirstRoll?;
  }

  /** A second gutter ball closes the open frame. */
  lemma CloseGutterFrame(k: nat)
    requires k < 9
    ensures Roll(Game(GutterFrames(k) + [FirstRoll(RolledPins(0))]), 0) == Ok(Game(GutterFrames(k + 1)))
  {
    var zero := RolledPins(0);
    var g := Game(GutterFrames(k) + [FirstRoll(zero)]);
    RawScoreIsPinTotal(FirstRoll(zero));
    assert State(g).Ok? && State(g).value.SecondRoll?;
    assert g.frames[k := SecondRoll(zero, zero)] == GutterFrames(k + 1);
  }

  /** Two more gutter balls at the end of n gutter balls. */
  lemma GutterRollsSnocSnoc(n: nat)
    ensures GutterRolls(n + 2) == GutterRolls(n) + [0] + [0]
  {
  }

  /** Two rolls that succeed one after the other on the game a roll list
      reaches extend the play by both. */
  lemma PlayTwoMore(rolls: seq<int>, g: Game, x: int, h: Game, y: int, j: Game)
    requires Play(New(), rolls) == Ok(g) && Roll(g, x) == Ok(h) && Roll(h, y) == Ok(j)
    ensures Play(New(), rolls + [x] + [y]) == Ok(j)
  {
    PlaySnoc(New(), rolls, x);
    PlaySnoc(New(), rolls + [x], y);
  }

  /** Two gutter balls after j gutter frames make one more gutter frame. */
  lemma PlayGutterFrame(j: nat)
    requires j < 9
    requires Play(New(), GutterRolls(2 * j)) == Ok(Game(GutterFrames(j)))
    ensures Play(New(), GutterRolls(2 * j + 2)) == Ok(Game(GutterFrames(j + 1)))
  {
    OpenGutterFrame(j);
    CloseGutterFrame(j);
    PlayTwoMore(GutterRolls(2 * j), Game(GutterFrames(j)), 0,
      Game(GutterFrames(j) + [FirstRoll(RolledPins(0))]), 0, Game(GutterFrames(j + 1)));
    GutterRollsSnocSnoc(2 * j);
  }

  /** k frames of two gutter balls each are played one roll at a time. */
  lemma {:induction false} PlayGutterFrames(k: nat)
    requires k <= 9
    ensures Play(New(), GutterRolls(2 * k)) == Ok(Game(GutterFrames(k)))
  {
    if k == 0 {
      assert GutterRolls(0) == [] && GutterFrames(0) == [];
    } else {
      PlayGutterFrames(k - 1);
      PlayGutterFrame(k - 1);
    }
  }

  /** Nine frames of two gutter balls each cannot be continued: the tenth
      frame's first roll is refused whatever its pin count. */
  lemma NinthFrameGap(roll: int)
    ensures Play(New(), GutterRolls(18)).Ok?
    ensures Play(New(), GutterRolls(18) + [roll]).Err?
  {
    PlayGutterFrames(9);
    PlaySnoc(New(), GutterRolls(18), roll);
  }

  /** A frame that gains one roll gains its pins. */
  lemma RawScoreSnoc(x: FrameScore, y: FrameScore, p: RolledPins)
    requires RolledPinsOf(y) == RolledPinsOf(x) + [p]
    ensures RawScore(y) == RawScore(x) + p.pins
  {
    SumPinsSnoc(RolledPinsOf(x), p);
  }

  /** Appending a one-roll frame of p pins raises the running score by p,
      plus at most p as bonus to the frame before it. */
  lemma AppendRaisesScore(a: seq<FrameScore>, b: seq<FrameScore>, p: RolledPins)
    requires |b| == |a| + 1 && b[..|a|] == a && b[|a|] == FirstRoll(p)
    ensures TotalScore(a) + p.pins <= TotalScore(b) <= TotalScore(a) + 2 * p.pins
  {
    var n := |a|;
    RawScoreIsPinTotal(FirstRoll(p));
    if n > 0 {
      ScoreOfFirstAgree(a, b, n - 1);
      assert RolledPinsOf(b[n]) == [] + [p];
      TakeSnoc([], p, BonusRolls(a[n - 1]));
      assert a[n - 1] == b[n - 1];
      assert 0 <= Bonus(b, n - 1) <= p.pins;
      assert ScoreOfFirst(a, n) == ScoreOfFirst(a, n - 1) + RawScore(a[n - 1]);
      assert ScoreOfFirst(b, n + 1) == ScoreOfFirst(b, n - 1) + RawScore(a[n - 1]) + Bonus(b, n - 1) + p.pins;
    } else {
      assert Bonus(b, 0) == 0;
      assert ScoreOfFirst(b, 1) == RawScore(FirstRoll(p));
    }
  }

  /** Adding a roll of p pins to the last frame raises the running score by
      p, plus at most p as bonus to the frame before it. */
  lemma ExtendRaisesScore(a: seq<FrameScore>, b: seq<FrameScore>, p: RolledPins)
    requires |a| == |b| > 0 && b[..|a| - 1] == a[..|a| - 1]
    requires RolledPinsOf(b[|a| - 1]) == RolledPinsOf(a[|a| - 1]) + [p]
    ensures TotalScore(a) + p.pins <= TotalScore(b) <= TotalScore(a) + 2 * p.pins
  {
    var n := |a|;
    RawScoreSnoc(a[n - 1], b[n - 1], p);
    assert ScoreOfFirst(b, n) == ScoreOfFirst(b, n - 1) + RawScore(a[n - 1]) + p.pins;
    if n > 1 {
      ScoreOfFirstAgree(a, b, n - 2);
      TakeSnoc(RolledPinsOf(a[n - 1]), p, BonusRolls(a[n - 2]));
      assert a[n - 2] == b[..n - 1][n - 2] == b[n - 2];
      assert Bonus(a, n - 2) <= Bonus(b, n - 2) <= Bonus(a, n - 2) + p.pins;
      assert Bonus(a, n - 1) == 0;
      assert ScoreOfFirst(a, n) == ScoreOfFirst(a, n - 2) + RawScore(a[n - 2]) + Bonus(a, n - 2) + RawScore(a[n - 1]);
      assert ScoreOfFirst(b, n - 1) == ScoreOfFirst(b, n - 2) + RawScore(a[n - 2]) + Bonus(b, n - 2);
    } else {
      assert ScoreOfFirst(a, 1) == RawScore(a[0]) + Bonus(a, 0);
      assert Bonus(a, 0) == 0 && Bonus(b, 0) == 0;
    }
  }

  /** A roll raises the running score by its own pins, and by at most that
      much again as bonus: a roll is credited to at most one earlier frame,
      because a bonus looks only one frame ahead. */
  lemma RollRaisesScore(g: Game, roll: int)
    requires Roll(g, roll).Ok?
    ensures TotalScore(g.frames) + roll <= TotalScore(Roll(g, roll).value.frames)
    ensures TotalScore(Roll(g, roll).value.frames) <= TotalScore(g.frames) + 2 * roll
  {
    var a := g.frames;
    var b := Roll(g, roll).value.frames;
    var p := RolledPins(roll);
    if State(g).value.FirstRoll? {
      AppendRaisesScore(a, b, p);
    } else {
      assert Last(a) == a[|a| - 1] && Last(b) == b[|b| - 1];
      ExtendRaisesScore(a, b, p);
    }
  }

  /** A strike's bonus comes from the next frame alone: when that frame is a
      single roll, the bonus is that roll, whatever follows. */
  lemma StrikeBonusLooksOneFrameAhead(frames: seq<FrameScore>, i: nat)
    requires i < 9 && i + 1 < |frames|
    requires IsStrike(frames[i]) && frames[i + 1].FirstRoll?
    ensures Bonus(frames, i) == frames[i + 1].pins.pins
  {
    LeadingPins(frames[i + 1]);
  }

  /** Three strikes in a row score 50 so far: each strike followed by a
      strike earns only that strike's 10 pins. */
  lemma ThreeStrikes()
    ensures Play(New(), [10, 10, 10]) ==
      Ok(Game([FirstRoll(RolledPins(10)), FirstRoll(RolledPins(10)), FirstRoll(RolledPins(10))]))
    ensures TotalScore([FirstRoll(RolledPins(10)), FirstRoll(RolledPins(10)), FirstRoll(RolledPins(10))]) == 50
  {
    var x := FirstRoll(RolledPins(10));
    RawScoreIsPinTotal(x);
    LeadingPins(x);
    assert Roll(Game([]), 10) == Ok(Game([x]));
    assert [x] + [x] == [x, x] && [x, x] + [x] == [x, x, x];
    assert Last([x]) == x && Last([x, x]) == x;
    assert Roll(Game([x]), 10) == Ok(Game([x, x]));
    assert Roll(Game([x, x]), 10) == Ok(Game([x, x, x]));
    assert [10, 10, 10][1..] == [10, 10] && [10, 10][1..] == [10] && [10][1..] == [];
  }

  /** The frame a state names never moves backwards across a roll. */
  lemma RollNeverGoesBackAFrame(g: Game, roll: int)
    requires Roll(g, roll).Ok? && State(Roll(g, roll).value).Ok?
    requires !State(Roll(g, roll).value).value.Complete?
    ensures State(g).value.frame.number <= State(Roll(g, roll).value).value.frame.number
  {
  }

  /** The state in each row of the derivation table. */
  lemma StateTable(g: Game)
    requires |g.frames| <= 10
    ensures g.frames == [] ==> State(g) == Ok(GS.FirstRoll(Frame(1)))
    ensures 0 < |g.frames| < 9 && Last(g.frames).SecondRoll? ==>
      State(g) == Ok(GS.FirstRoll(Frame(|g.frames| + 1)))
    ensures 0 < |g.frames| < 10 && IsStrike(Last(g.frames)) ==>
      State(g) == Ok(GS.FirstRoll(Frame(|g.frames| + 1)))
    ensures |g.frames| == 10 && IsStrike(Last(g.frames)) ==>
      State(g) == Ok(GS.SecondRoll(Frame(10)))
    ensures g.frames != [] && Last(g.frames).FirstRoll? && !IsStrike(Last(g.frames)) ==>
      State(g) == Ok(GS.SecondRoll(Frame(|g.frames|)))
    ensures |g.frames| == 10 && Last(g.frames).SecondRoll? && RawScore(Last(g.frames)) >= 10 ==>
      State(g) == Ok(GS.FinalBonusRoll(Frame(10)))
    ensures |g.frames| == 10 && Last(g.frames).SecondRoll? && RawScore(Last(g.frames)) < 10 ==>
      State(g) == Ok(GS.Complete)
    ensures |g.frames| == 10 && Last(g.frames).FinalBonusFrame? ==>
      State(g) == Ok(GS.Complete)
  {
  }
}
