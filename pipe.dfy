/** A single pipe (obstacle): its record and its constructor. */
module Pipe {

  /** The window is 800 by 600 pixels. */
  const ScreenWidth := 800
  const ScreenHeight := 600

  /** Every pipe is 50 pixels wide and 100 + rand.Intn(50) pixels high. */
  const Width := 50
  const MinHeight := 100
  const HeightSpread := 50

  /** `x` is the left edge in pixels, `h` the height of the solid part, `inverted`
      whether the pipe hangs from the top of the window instead of standing on the floor. */
  datatype Pipe = Pipe(x: int, h: int, w: int, inverted: bool)

  /** newPipe, with the two random draws as parameters: `offset` is rand.Intn(50)
      and `inverted` is the outcome of rand.Float32() > 0.5. */
  function NewPipe(offset: int, inverted: bool): (p: Pipe)
    requires 0 <= offset < HeightSpread
    ensures p.x == ScreenWidth && p.w == Width
    ensures MinHeight <= p.h < MinHeight + HeightSpread && p.h - MinHeight == offset
    ensures p.inverted == inverted
  {
    Pipe(ScreenWidth, MinHeight + offset, Width, inverted)
  }

  /** A pipe is kept while its right edge is still right of the window's left edge. */
  predicate OnScreen(p: Pipe) {
    p.x + p.w > 0
  }

  /** The pipe scrolled left by `d` pixels. */
  function Moved(p: Pipe, d: int): Pipe {
    p.(x := p.x - d)
  }

  /** The vertical extent of the pipe's solid part in game coordinates (0 is the floor,
      ScreenHeight the top), as it is painted: a standing pipe fills [0, h], an inverted
      one [ScreenHeight - h, ScreenHeight]. */
  function SolidLow(p: Pipe): int {
    if p.inverted then ScreenHeight - p.h else 0
  }

  function SolidHigh(p: Pipe): int {
    if p.inverted then ScreenHeight else p.h
  }
}
