/** The bird: its physics, its collision test against a pipe, and the animation
    frame it shows. Speeds are counted in tenths of a pixel per tick, so that the
    gravity of 0.1 becomes the integer 1. */
module Bird {
  import opened Arith
  import opened Pipe

  /** Tenths of a pixel per pixel. */
  const Scale := 10
  /** Added to the speed on every tick (0.1 pixel per tick). */
  const Gravity := 1
  /** A jump sets the speed to minus this (5 pixels per tick, upward). */
  const JumpSpeed := 5 * Scale

  /** Where newBird places the bird, and its size. */
  const StartX := 10
  const StartY := 300
  const BirdWidth := 50
  const BirdHeight := 43

  /** The bird has four animation frames and shows each for ten ticks. */
  const FrameCount := 4
  const TicksPerFrame := 10

  /** The bird's fields: `time` counts ticks, `y` is the height of the bird's centre
      above the floor, `speed` is downward and in tenths of a pixel per tick. */
  datatype BirdState = BirdState(time: int, x: int, y: int, w: int, h: int, speed: int, dead: bool)

  /** One tick of bird.update: count the tick, fall by the whole pixels of the speed,
      and on passing below the floor stop at the floor, reverse the speed and die;
      then add gravity. */
  function Advance(b: BirdState): (r: BirdState)
    ensures r.time == b.time + 1 && r.x == b.x && r.w == b.w && r.h == b.h
    ensures r.y >= 0
    ensures b.dead ==> r.dead
    ensures r.dead && !b.dead ==> r.y == 0
  {
    var y := b.y - TruncDiv(b.speed, Scale);
    if y < 0 then b.(time := b.time + 1, y := 0, speed := -b.speed + Gravity, dead := true)
    else b.(time := b.time + 1, y := y, speed := b.speed + Gravity)
  }

  /** The state bird.restart leaves behind. */
  function Restarted(b: BirdState): BirdState {
    b.(y := StartY, speed := 0, dead := false)
  }

  /** The collision test of bird.touch. The bird occupies the columns [x, x + w] and
      the rows [y - h/2, y + h/2]; all boundaries count as contact. */
  predicate Hits(b: BirdState, p: Pipe) {
    && !(p.x > b.x + b.w)
    && !(p.x + p.w < b.x)
    && (p.inverted || p.h >= b.y - TruncDiv(b.h, 2))
    && (!p.inverted || ScreenHeight - p.h <= b.y + TruncDiv(b.h, 2))
  }

  /** The state bird.touch leaves behind. */
  function Touched(b: BirdState, p: Pipe): BirdState {
    if Hits(b, p) then b.(dead := true) else b
  }

  /** `n` ticks of bird.update with no jump in between. */
  function Ticks(b: BirdState, n: nat): BirdState
    decreases n
  {
    if n == 0 then b else Ticks(Advance(b), n - 1)
  }

  /** None of the next `n` ticks brings the bird below the floor. */
  predicate Airborne(b: BirdState, n: nat)
    decreases n
  {
    n == 0 || (b.y - TruncDiv(b.speed, Scale) >= 0 && Airborne(Advance(b), n - 1))
  }

  /** The index of the animation frame bird.paint draws: one frame per ten ticks,
      cycling through `frames` textures. */
  function FrameIndex(time: int, frames: int): (i: int)
    requires time >= 0 && frames > 0
    ensures 0 <= i < frames
  {
    TruncDiv(time, TicksPerFrame) % frames
  }

  /** The frame sequence repeats every FrameCount * TicksPerFrame ticks. */
  lemma FrameCycle(time: int)
    requires time >= 0
    ensures FrameIndex(time + FrameCount * TicksPerFrame, FrameCount) == FrameIndex(time, FrameCount)
  {
  }

  /** While the bird stays above the floor, every tick adds exactly one gravity step to
      its speed and one to its clock, and neither kills nor revives it. */
  lemma {:induction false} FreeFall(b: BirdState, n: nat)
    requires Airborne(b, n)
    ensures Ticks(b, n).speed == b.speed + n * Gravity
    ensures Ticks(b, n).time == b.time + n
    ensures Ticks(b, n).dead == b.dead
    decreases n
  {
    if n > 0 {
      FreeFall(Advance(b), n - 1);
    }
  }

  /** Death is permanent under any number of ticks: only restart revives the bird. */
  lemma {:induction false} DeadStaysDead(b: BirdState, n: nat)
    requires b.dead
    ensures Ticks(b, n).dead
    decreases n
  {
    if n > 0 {
      DeadStaysDead(Advance(b), n - 1);
    }
  }

  /** A bird on the floor moving slower than one pixel per tick (either way) stays on
      the floor for good: its speed never again reaches a whole pixel upward. */
  lemma {:induction false} RestsOnFloor(b: BirdState, n: nat)
    requires b.y == 0 && -Scale < b.speed <= Scale
    ensures Ticks(b, n).y == 0 && -Scale < Ticks(b, n).speed <= Scale
    ensures b.dead ==> Ticks(b, n).dead
    decreases n
  {
    if n > 0 {
      var a := Advance(b);
      assert a.y == 0 && -Scale < a.speed <= Scale by {
        if b.speed < Scale {
          assert TruncDiv(b.speed, Scale) == 0;
        } else {
          assert TruncDiv(b.speed, Scale) == 1;
        }
      }
      RestsOnFloor(a, n - 1);
    }
  }

  /** Hitting the floor faster than one pixel per tick reverses the speed, so the
      next tick lifts the (dead) bird off the floor again: the floor does not hold it. */
  lemma GroundContactBounces(b: BirdState)
    requires b.y - TruncDiv(b.speed, Scale) < 0 && b.speed > Scale
    ensures Advance(b).y == 0 && Advance(b).dead && Advance(b).speed == -b.speed + Gravity
    ensures Advance(Advance(b)).y > 0
  {
  }

  /** A bird can pass below the floor no slower than one pixel per tick; at exactly
      that speed the floor holds it for every later tick. */
  lemma {:induction false} SlowLandingStays(b: BirdState, n: nat)
    requires b.y >= 0 && b.y - TruncDiv(b.speed, Scale) < 0 && b.speed <= Scale
    ensures b.speed == Scale
    ensures Ticks(Advance(b), n).y == 0 && Ticks(Advance(b), n).dead
  {
    RestsOnFloor(Advance(b), n);
  }

  /** restart puts the bird back at its starting height, still and alive, keeps
      its clock, column and size, and a second restart changes nothing. */
  lemma RestartResets(b: BirdState)
    ensures Restarted(b).y == StartY && Restarted(b).speed == 0 && !Restarted(b).dead
    ensures Restarted(b).(y := b.y, speed := b.speed, dead := b.dead) == b
    ensures Restarted(Restarted(b)) == Restarted(b)
  {
  }

  /** touch can only kill: it never revives the bird and changes nothing but `dead`;
      a pipe wholly left or right of the bird leaves it as it was. */
  lemma TouchOnlyKills(b: BirdState, p: Pipe)
    ensures Touched(b, p).dead == (b.dead || Hits(b, p))
    ensures Touched(b, p).(dead := b.dead) == b
    ensures p.x > b.x + b.w || p.x + p.w < b.x ==> Touched(b, p) == b
  {
  }

  /** Closed-interval overlap; touching intervals overlap. */
  predicate Overlap(lo1: int, hi1: int, lo2: int, hi2: int) {
    lo1 <= hi2 && lo2 <= hi1
  }

  /** The collision test is exactly the overlap of the bird's box with the pipe's solid
      box, edges included, for a bird that is not wholly above the window. */
  lemma HitsIsBoxOverlap(b: BirdState, p: Pipe)
    requires b.y >= 0 && b.h >= 0 && b.y - TruncDiv(b.h, 2) <= ScreenHeight
    ensures Hits(b, p) <==>
      && Overlap(b.x, b.x + b.w, p.x, p.x + p.w)
      && Overlap(b.y - TruncDiv(b.h, 2), b.y + TruncDiv(b.h, 2), SolidLow(p), SolidHigh(p))
  {
  }

  /** Above the window the test no longer matches the picture: an inverted pipe in
      the bird's columns kills a bird that flies wholly over it. */
  lemma InvertedPipeReachesUp(b: BirdState, p: Pipe)
    requires p.inverted && Overlap(b.x, b.x + b.w, p.x, p.x + p.w)
    requires p.h >= 0 && b.h >= 0 && b.y - TruncDiv(b.h, 2) > ScreenHeight
    ensures Hits(b, p)
    ensures !Overlap(b.y - TruncDiv(b.h, 2), b.y + TruncDiv(b.h, 2), SolidLow(p), SolidHigh(p))
  {
  }

  /** The bird record of bird.go. `x`, `w` and `h` are set once by newBird and never
      assigned again, so they are constants here. */
  class Bird {
    var time: int
    const x: int
    var y: int
    const w: int
    const h: int
    var speed: int
    var dead: bool

    function State(): BirdState
      reads this
    {
      BirdState(time, x, y, w, h, speed, dead)
    }

    /** The tick count, the height above the floor and the bird's size are not
        negative; `Advance` shows that an update keeps them so. */
    ghost predicate Valid()
      reads this
    {
      0 <= time && 0 <= y && 0 <= h
    }

    /** newBird, without loading the textures. */
    constructor ()
      ensures Valid()
      ensures State() == BirdState(0, StartX, StartY, BirdWidth, BirdHeight, 0, false)
    {
      time, x, y, w, h, speed, dead := 0, StartX, StartY, BirdWidth, BirdHeight, 0, false;
    }

    method Update()
      requires Valid()
      modifies this`time, this`y, this`speed, this`dead
      ensures Valid()
      ensures State() == Advance(old(State()))
    {
      time := time + 1;
      y := y - TruncDiv(speed, Scale);
      if y < 0 {
        y := 0;
        speed := -speed;
        dead := true;
      }
      speed := speed + Gravity;
    }

    method IsDead() returns (d: bool)
      ensures d == dead
    {
      d := dead;
    }

    method Restart()
      requires Valid()
      modifies this`y, this`speed, this`dead
      ensures Valid()
      ensures State() == Restarted(old(State()))
    {
      y := StartY;
      speed := 0;
      dead := false;
    }

    /** The jump overrides whatever the bird was doing, dead or alive. */
    method Jump()
      modifies this`speed
      ensures speed == -JumpSpeed
    {
      speed := -JumpSpeed;
    }

    method Touch(p: Pipe)
      modifies this`dead
      ensures State() == Touched(old(State()), p)
    {
      if p.x > x + w {
        return;
      }
      if p.x + p.w < x {
        return;
      }
      if !p.inverted && p.h < y - TruncDiv(h, 2) {
        return;
      }
      if p.inverted && ScreenHeight - p.h > y + TruncDiv(h, 2) {
        return;
      }
      dead := true;
    }
  }
}
