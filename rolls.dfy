/** Single rolls and the scores recorded for one frame (Rolls.cs). */
module Rolls {
  import opened Errors

  /** The pin counts a single roll can knock down. */
  type PinCount = n: int | 0 <= n <= 10

  /** One validated roll. */
  datatype RolledPins = RolledPins(pins: PinCount)

  /** The validating constructor of RolledPins. */
  function MakeRolledPins(pins: int): (r: Result<RolledPins>)
    ensures r.Ok? <==> 0 <= pins <= 10
    ensures r.Ok? ==> r.value.pins == pins
    ensures r.Err? ==> r.error == PinsOutOfRange(pins)
  {
    if pins < 0 then Err(PinsOutOfRange(pins))
    else if pins > 10 then Err(PinsOutOfRange(pins))
    else Ok(RolledPins(pins))
  }

  /** What has been rolled in one frame so far: one roll, two rolls, or the
      three rolls of a final frame that earned a bonus roll. */
  datatype FrameScore =
    | FirstRoll(pins: RolledPins)
    | SecondRoll(first: RolledPins, second: RolledPins)
    | FinalBonusFrame(first: RolledPins, second: RolledPins, third: RolledPins)

  /** The invariant each variant's constructor checks. */
  predicate Valid(f: FrameScore) {
    match f
    case FirstRoll(_) => true
    case SecondRoll(first, second) => first.pins + second.pins <= 10
    case FinalBonusFrame(first, second, _) => first.pins == 10 || first.pins + second.pins == 10
  }

  /** The frame's rolls in the order they were rolled; the shared base
      constructor refuses fewer than one and more than three. */
  function RolledPinsOf(f: FrameScore): (rs: seq<RolledPins>)
    ensures 1 <= |rs| <= 3
    ensures |rs| == match f case FirstRoll(_) => 1 case SecondRoll(_, _) => 2 case FinalBonusFrame(_, _, _) => 3
    ensures rs[0] == (if f.FirstRoll? then f.pins else f.first)
    ensures !f.FirstRoll? ==> rs[1] == f.second
    ensures f.FinalBonusFrame? ==> rs[2] == f.third
  {
    match f
    case FirstRoll(p) => [p]
    case SecondRoll(first, second) => [first, second]
    case FinalBonusFrame(first, second, third) => [first, second, third]
  }

  /** The number of pins knocked down in a list of rolls. */
  function SumPins(rs: seq<RolledPins>): (s: int)
    ensures 0 <= s <= 10 * |rs|
  {
    if rs == [] then 0 else rs[0].pins + SumPins(rs[1..])
  }

  /** The raw score of a frame: the pins of its own rolls, without bonus. */
  function RawScore(f: FrameScore): (s: int)
    ensures 0 <= s <= 30
  {
    SumPins(RolledPinsOf(f))
  }

  /** Two rolls are a SecondRoll only when they knock down at most ten pins. */
  function MakeSecondRoll(first: RolledPins, second: RolledPins): (r: Result<FrameScore>)
    ensures r.Ok? <==> first.pins + second.pins <= 10
    ensures r.Ok? ==> r.value == SecondRoll(first, second) && Valid(r.value)
    ensures r.Err? ==> r.error == SecondRollOverTen
  {
    if first.pins + second.pins > 10 then Err(SecondRollOverTen)
    else Ok(SecondRoll(first, second))
  }

  /** Adds a second roll to a frame that has one. */
  function FromFirstRoll(first: FrameScore, second: RolledPins): (r: Result<FrameScore>)
    requires first.FirstRoll?
    ensures r.Ok? <==> RawScore(first) + second.pins <= 10
    ensures r.Ok? ==> r.value.SecondRoll? && Valid(r.value)
    ensures r.Ok? ==> RolledPinsOf(r.value) == RolledPinsOf(first) + [second]
    ensures r.Err? ==> r.error == SecondRollOverTen
  {
    RawScoreIsPinTotal(first);
    MakeSecondRoll(first.pins, second)
  }

  /** Three rolls are a FinalBonusFrame only after a strike or a spare. */
  function MakeFinalBonusFrame(first: RolledPins, second: RolledPins, third: RolledPins): (r: Result<FrameScore>)
    ensures r.Ok? <==> first.pins == 10 || first.pins + second.pins == 10
    ensures r.Ok? ==> r.value == FinalBonusFrame(first, second, third) && Valid(r.value)
    ensures r.Err? ==> r.error == NotAFinalBonusFrame
  {
    if first.pins != 10 && first.pins + second.pins != 10 then Err(NotAFinalBonusFrame)
    else Ok(FinalBonusFrame(first, second, third))
  }

  /** Adds a third roll to a frame that has two. */
  function FromSecondRoll(secondRoll: FrameScore, third: RolledPins): (r: Result<FrameScore>)
    requires secondRoll.SecondRoll?
    ensures r.Ok? <==> secondRoll.first.pins == 10 || RawScore(secondRoll) == 10
    ensures r.Ok? ==> r.value.FinalBonusFrame? && Valid(r.value)
    ensures r.Ok? ==> RolledPinsOf(r.value) == RolledPinsOf(secondRoll) + [third]
    ensures r.Err? ==> r.error == NotAFinalBonusFrame
  {
    RawScoreIsPinTotal(secondRoll);
    MakeFinalBonusFrame(secondRoll.first, secondRoll.second, third)
  }

  /** Pins add up across a concatenation of roll lists. */
  lemma {:induction false} SumPinsAppend(a: seq<RolledPins>, b: seq<RolledPins>)
    ensures SumPins(a + b) == SumPins(a) + SumPins(b)
  {
    if a == [] {
      assert a + b == b;
    } else {
      assert (a + b)[0] == a[0];
      assert (a + b)[1..] == a[1..] + b;
      SumPinsAppend(a[1..], b);
    }
  }

  /** The raw score adds up the pins of the variant's own rolls. */
  lemma RawScoreIsPinTotal(f: FrameScore)
    ensures RawScore(f) == match f
      case FirstRoll(p) => p.pins
      case SecondRoll(first, second) => first.pins + second.pins
      case FinalBonusFrame(first, second, third) => first.pins + second.pins + third.pins
  {
    var rs := RolledPinsOf(f);
    assert SumPins(rs[|rs|..]) == 0;
    if |rs| >= 2 {
      assert SumPins(rs[1..]) == rs[1].pins + SumPins(rs[2..]);
    }
    if |rs| == 3 {
      assert SumPins(rs[2..]) == rs[2].pins + SumPins(rs[3..]);
    }
  }

  /** A valid SecondRoll scores at most ten, so a score of ten or more is exactly ten. */
  lemma SecondRollScore(f: FrameScore)
    requires f.SecondRoll? && Valid(f)
    ensures RawScore(f) == f.first.pins + f.second.pins <= 10
  {
    RawScoreIsPinTotal(f);
  }
}
