/** The index of a frame within a game (Frame.cs). */
module Frames {
  import opened Errors

  /** The numbers a frame can carry. */
  type FrameNumber = n: int | 1 <= n <= 10 witness 1

  datatype Frame = Frame(number: FrameNumber)

  /** The validating constructor of Frame. */
  function MakeFrame(number: int): (r: Result<Frame>)
    ensures r.Ok? <==> 1 <= number <= 10
    ensures r.Ok? ==> r.value.number == number
    ensures r.Err? ==> r.error == FrameOutOfRange(number)
  {
    if number < 1 then Err(FrameOutOfRange(number))
    else if number > 10 then Err(FrameOutOfRange(number))
    else Ok(Frame(number))
  }

  /** The first frame of a game. */
  function FirstFrame(): (f: Frame)
    ensures MakeFrame(1) == Ok(f) && f.number == 1
  {
    MakeFrame(1).value
  }
}
