/** The running score of a game, stated frame by frame: each frame's own pins,
    plus, for a strike or a spare among the first nine frames, the first
    rolls recorded in the frame that follows it. This is the reference the
    loop in Games.Score is proved against (Game.cs, Score). */
module Scoring {
  import opened Rolls

  /** At most the first n of the rolls. */
  function Take(rs: seq<RolledPins>, n: nat): (t: seq<RolledPins>)
    ensures |t| <= n && t <= rs
  {
    if n <= |rs| then rs[..n] else rs
  }

  /** How many rolls of the next frame a frame with a raw score of 10 earns:
      two for a strike, one for a spare, none for a final frame. */
  function BonusRolls(f: FrameScore): nat {
    match f
    case FirstRoll(_) => 2
    case SecondRoll(_, _) => 1
    case FinalBonusFrame(_, _, _) => 0
  }

  /** A frame among the first nine with a raw score of 10 for which there is
      no bonus rule: a FinalBonusFrame. */
  predicate Unscorable(frames: seq<FrameScore>, i: nat)
    requires i < |frames|
  {
    i < 9 && frames[i].FinalBonusFrame? && RawScore(frames[i]) == 10
  }

  /** No frame of the list is unscorable. */
  predicate Scorable(frames: seq<FrameScore>) {
    forall i: nat | i < |frames| :: !Unscorable(frames, i)
  }

  /** The bonus frame i earns: only frames 1 to 9 with a raw score of 10, and
      only from the rolls already recorded in the very next frame. */
  function Bonus(frames: seq<FrameScore>, i: nat): (b: int)
    requires i < |frames|
    ensures 0 <= b <= 10 * BonusRolls(frames[i])
    ensures b != 0 ==> i < 9 && i + 1 < |frames| && RawScore(frames[i]) == 10
  {
    if i < 9 && RawScore(frames[i]) == 10 && i + 1 < |frames| then
      SumPins(Take(RolledPinsOf(frames[i + 1]), BonusRolls(frames[i])))
    else
      0
  }

  /** The pins of a frame's first one and first two recorded rolls. */
  lemma LeadingPins(f: FrameScore)
    ensures SumPins(Take(RolledPinsOf(f), 1)) == RolledPinsOf(f)[0].pins
    ensures SumPins(Take(RolledPinsOf(f), 2)) ==
      if f.FirstRoll? then f.pins.pins else f.first.pins + f.second.pins
  {
    var rs := RolledPinsOf(f);
    var one, two := Take(rs, 1), Take(rs, 2);
    assert one == [rs[0]] && one[1..] == [];
    if f.FirstRoll? {
      assert two == [rs[0]];
    } else {
      assert two == [rs[0], rs[1]] && two[1..] == [rs[1]] && two[1..][1..] == [];
    }
  }

  /** The score of the first n frames, bonuses included. */
  function ScoreOfFirst(frames: seq<FrameScore>, n: nat): int
    requires n <= |frames|
  {
    if n == 0 then 0 else ScoreOfFirst(frames, n - 1) + RawScore(frames[n - 1]) + Bonus(frames, n - 1)
  }

  /** The running score of all recorded frames. */
  function TotalScore(frames: seq<FrameScore>): int {
    ScoreOfFirst(frames, |frames|)
  }

  /** The score of the first k frames depends only on the first k + 1 frames. */
  lemma {:induction false} ScoreOfFirstAgree(a: seq<FrameScore>, b: seq<FrameScore>, k: nat)
    requires k < |a| && k < |b| && a[..k + 1] == b[..k + 1]
    ensures ScoreOfFirst(a, k) == ScoreOfFirst(b, k)
  {
    if k > 0 {
      assert a[..k] == a[..k + 1][..k] && b[..k] == b[..k + 1][..k];
      ScoreOfFirstAgree(a, b, k - 1);
      assert a[k - 1] == a[..k + 1][k - 1] && a[k] == a[..k + 1][k];
      assert b[k - 1] == b[..k + 1][k - 1] && b[k] == b[..k + 1][k];
    }
  }

  /** One more roll at the end of a roll list adds its pins. */
  lemma SumPinsSnoc(rs: seq<RolledPins>, p: RolledPins)
    ensures SumPins(rs + [p]) == SumPins(rs) + p.pins
  {
    SumPinsAppend(rs, [p]);
    assert [p][1..] == [];
  }

  /** A bonus window over a roll list gains at most the one roll added to it. */
  lemma TakeSnoc(rs: seq<RolledPins>, p: RolledPins, n: nat)
    ensures SumPins(Take(rs, n)) <= SumPins(Take(rs + [p], n)) <= SumPins(Take(rs, n)) + p.pins
  {
    if n <= |rs| {
      assert Take(rs + [p], n) == Take(rs, n);
    } else {
      assert Take(rs + [p], n) == rs + [p] && Take(rs, n) == rs;
      SumPinsSnoc(rs, p);
    }
  }
}
