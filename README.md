# Flappy Gopher: a verified model of the simulation core

This project models the simulation rules of the Go "Flappy Gopher" game. It covers
four parts:

- **The bird.** It falls under gravity, jumps on any key event, and dies when it
  passes below the floor or touches a pipe.
- **The pipe field.** An ordered list of pipes that scrolls left one pixel per tick
  and drops pipes that have left the window. The spawner appends a new pipe at the
  tail once a second.
- **The scene.** It owns the bird and the pipes. Each tick runs bird update, pipe
  update and collision in that order, then restarts everything if the bird is dead.
  It also maps input events to actions.

The game's objects are mutable records, so `Bird`, `Pipes` and `Scene` are classes
whose methods change their fields. Each method is proved against a pure function on
values: `BirdState`, `seq<Pipe>`, `Advance`, `Scrolled`, `Collided`, `Stepped`.
Lemmas about those functions state what the game promises: invariants, order,
boundary behaviour and lifetimes.

Representation choices:

- **Speed.** It is a `float64` in the game. Here it is an integer count of tenths of
  a pixel per tick, so the gravity of 0.1 is `Gravity == 1` and the jump speed of 5
  is `JumpSpeed == 50`.
- **Truncation.** The game's `int32(b.speed)` and `b.h/2` truncate toward zero.
  They are written with `Arith.TruncDiv`, because Dafny's `/` is Euclidean.
- **Randomness.** The two random draws of `newPipe` are parameters of
  `Pipe.NewPipe` and `Pipes.Pipes.Spawn`: the height offset is `rand.Intn(50)` and
  the flag is `rand.Float32() > 0.5`.
- **Fixed geometry.** `x`, `w` and `h` of the bird and `speed` of the pipe field are
  set once and never assigned again, so they are `const` fields.
- **Pipes as values.** In the game, pipes are pointers that belong to the list alone,
  and `update` moves each one in place. Here they are values in a `seq`.

The code's behaviour differs from what the game appears to do on screen in three
places. The model follows the code in each:

- **The floor does not hold a dead bird.** Reaching the floor negates the speed
  (bird.go:50). A bird that goes below the floor falls at least one pixel per tick.
  If it falls faster than that, the next tick lifts it back up
  (`Bird.GroundContactBounces`). If it falls at exactly one pixel per tick, it stays
  on the floor for good (`Bird.SlowLandingStays`, from `Bird.RestsOnFloor`). Within the scene this is never
  visible, because a dead bird is restarted on the same tick.
- **A pipe leaves later than its left edge suggests.** A pipe stays while its right
  edge is right of the window's left edge (pipes.go:82). A pipe spawned at x = 800
  is therefore still present after 849 updates, at x = -49. The 850th update drops
  it (`Pipes.NewPipeLifetime`).
- **An inverted pipe reaches above the window.** It kills a bird even when the bird
  flies wholly above it (`Bird.InvertedPipeReachesUp`). For a bird inside the
  window, the collision test is exactly a closed-box overlap (`Bird.HitsIsBoxOverlap`).

## Model

| member | source | states |
|---|---|---|
| Arith.TruncDiv | bird.go:47 | the speed's conversion to whole pixels rounds toward zero: the quotient times the divisor lies between 0 and the dividend, less than one divisor away |
| Arith.TruncDivOdd | bird.go:47 | the conversion is symmetric about zero: -a converts to minus what a converts to |
| Pipe.NewPipe | pipes.go:107-115 | a new pipe stands at x = 800 and is 50 wide. Its height is 100 plus the random offset, so it lies in [100, 150). The orientation is the random flag |
| Bird.Advance | bird.go:43-54 | one update: time goes up by exactly 1, and x, w, h are unchanged. Afterwards y >= 0. A dead bird stays dead. A bird that dies during the update is on the floor |
| Bird.FreeFall | bird.go:46-53 | over n updates that never reach the floor, the speed grows by exactly n gravity steps and time by n, and `dead` is unchanged |
| Bird.DeadStaysDead | bird.go:43-54 | no number of updates revives a dead bird |
| Bird.RestsOnFloor | bird.go:47-53 | a bird on the floor moving at less than one pixel per tick stays at y = 0 for any number of updates; if dead, it stays dead |
| Bird.GroundContactBounces | bird.go:48-53 | passing below the floor faster than 1 pixel per tick clamps y to 0, kills, and makes the speed -speed + gravity. That reversed speed lifts the bird above 0 on the next update |
| Bird.SlowLandingStays | bird.go:47-53 | a bird that passes below the floor falls at least 1 pixel per tick. At exactly 1 pixel per tick, it stays at y = 0 and dead for every later tick |
| Bird.FrameIndex | bird.go:78 | the animation frame index `time/10 % n` lies in [0, n) for time >= 0 and n > 0 |
| Bird.FrameCycle | bird.go:78 | with 4 frames of 10 ticks, the frame shown repeats every 40 ticks |
| Bird.RestartResets | bird.go:64-71 | restart sets y = 300, speed = 0 and dead = false. It keeps time, x, w and h. It is idempotent |
| Bird.TouchOnlyKills | bird.go:96-116 | touch sets dead exactly when the bird was dead or the pipe hits it, and changes nothing else. A pipe wholly right of x + w or left of x leaves the bird unchanged |
| Bird.HitsIsBoxOverlap | bird.go:100-114 | for a bird inside the window, touch kills iff the closed boxes overlap. The bird's box is [x, x+w] by [y-h/2, y+h/2]. The pipe's solid box is [p.x, p.x+p.w] by [0, p.h], or [600-p.h, 600] when inverted. Edges count as contact |
| Bird.InvertedPipeReachesUp | bird.go:111-114 | an inverted pipe that overlaps the bird horizontally kills it even when the bird is wholly above the window |
| Bird.Bird.constructor | bird.go:38 | newBird starts at time 0, x = 10, y = 300, w = 50, h = 43, still and alive |
| Bird.Bird.Update | bird.go:43-54 | the new state is `Advance` of the old one; y >= 0 and time >= 0 are kept |
| Bird.Bird.IsDead | bird.go:57-61 | returns the death flag |
| Bird.Bird.Restart | bird.go:64-71 | the new state is `Restarted` of the old one |
| Bird.Bird.Jump | bird.go:89-93 | the speed becomes exactly -5 pixels per tick; only the speed may change, so y, dead and time are kept |
| Bird.Bird.Touch | bird.go:96-116 | the chain of early returns leaves the state that `Touched` describes; only `dead` may change |
| Pipes.Survivors | pipes.go:82-84 | the kept pipes are no more than the given ones. Each kept pipe has x + w > 0. A pipe is kept iff it was given and has x + w > 0 |
| Pipes.SurvivorsAppend | pipes.go:77-87 | filtering distributes over concatenation, so survivors keep their relative order |
| Pipes.SurvivorsKeepsOnScreen | pipes.go:82-87 | the filter removes nothing iff every pipe has x + w > 0 |
| Pipes.SurvivorsIdempotent | pipes.go:82-87 | filtering twice is filtering once |
| Pipes.ScrolledSnoc | pipes.go:78-86 | one more pipe at the end of the list is moved, and kept at the end iff still on screen |
| Pipes.ScrolledAppend | pipes.go:77-87 | update of a concatenation is the concatenation of the updates, so order is preserved |
| Pipes.ScrolledMoves | pipes.go:78-87 | every remaining pipe is an old pipe moved by exactly `speed`, with h, w and inverted unchanged, and satisfies x + w > 0. Every old pipe whose moved copy is on screen remains. The count never increases |
| Pipes.ScrolledKeepsPlaced | pipes.go:78-87 | scrolling by a non-negative speed keeps every pipe on screen, at x <= 800, 50 wide and 100 to 149 high |
| Pipes.OnePipeLifetime | pipes.go:77-87 | after k updates, a lone pipe is at x - k*speed exactly while its right edge stays on screen, and gone afterwards |
| Pipes.NewPipeLifetime | pipes.go:73-88 | a newly spawned pipe at speed 1 is present for the first 849 updates, at x = 800 - k, and gone from the 850th on |
| Pipes.HitsAny | pipes.go:47-53 | the fold of the bird's collision test over the list holds iff some pipe in the list hits the bird |
| Pipes.HitsAnySnoc | pipes.go:50-52 | testing one more pipe adds exactly that pipe's hit |
| Pipes.HitsAnyOrderFree | pipes.go:47-53 | the order of the pipes does not matter to the collision result |
| Pipes.Pipes.constructor | pipes.go:30-33 | newPipes starts with speed 1 and no pipes |
| Pipes.Pipes.Spawn | pipes.go:36-38 | appends exactly one new pipe at the tail and leaves the existing prefix unchanged; every pipe stays placed |
| Pipes.Pipes.Touch | pipes.go:47-53 | looping over every pipe leaves the bird dead iff it was dead or some pipe hits it. No other field changes |
| Pipes.Pipes.Restart | pipes.go:66-70 | the list becomes empty |
| Pipes.Pipes.Update | pipes.go:73-88 | the loop leaves the in-order filter by x + w > 0 of the pipes moved by `speed`, and keeps every pipe placed |
| Scene.CollisionSameTick | scene.go:75-79 | a pipe 1 pixel clear of the bird before the tick kills it on that tick, because collision is judged after the move |
| Scene.DeathHasCause | scene.go:75-79 | after a tick the bird is dead iff it was dead, it went below the floor, or a moved pipe hits the moved bird |
| Scene.Scene.constructor | scene.go:19-37 | newScene owns a fresh bird at its starting state and a fresh, empty pipe field |
| Scene.Scene.Update | scene.go:75-79 | the new bird and pipes are `Stepped`: bird update, then pipe update, then collision against the moved pipes |
| Scene.Scene.Restart | scene.go:98-101 | the bird is restarted (y = 300, speed 0, alive) and the pipe list emptied |
| Scene.Scene.Tick | scene.go:55-60 | the tick always ends with the bird alive: either the updated state, or the restarted bird with no pipes if the update killed it |
| Scene.Scene.HandleEvent | scene.go:104-118 | returns true iff the event is Quit. A keyboard event sets the speed to -5 pixels per tick. Quit, window, mouse-motion and unknown events change nothing |

Helpers without contracts of their own are the pure counterparts the members above
are stated with:

- `Pipe.OnScreen`, `Pipe.Moved`, `Pipe.SolidLow` and `Pipe.SolidHigh`;
- `Bird.Hits`, `Bird.Touched`, `Bird.Restarted`, `Bird.Ticks`, `Bird.Airborne`,
  `Bird.Overlap` and `Bird.Bird.State`;
- `Pipes.Shift`, `Pipes.Scrolled`, `Pipes.ScrolledN`, `Pipes.Collided` and
  `Pipes.Placed`;
- `Scene.Stepped`.

`Arith.DivBounds`, `Pipes.ScrolledSingle`, `Pipes.ShiftAppend` and `Pipes.MulStep`
are proof steps.

## Left out

- main.go is not modelled: SDL and TTF start-up, the window, the event pump, the title and the OS-thread lock are input and output only.
- Painting and destruction are not modelled: `paint`, `destroy`, `img.LoadTexture` and `drawTitle` are calls into SDL. Only the index of the bird's animation frame is kept (`Bird.FrameIndex`). The pixel rectangles are not modelled.
- The run loop (scene.go:40-72) is not modelled: its `select` between events and ticks, `time.Tick`, the one-second "Game Over" pause and the error channel. The tick body is `Scene.Scene.Tick` and each event is `Scene.Scene.HandleEvent`. How ticks, events and spawns interleave is up to the caller of these methods.
- The spawner goroutine (pipes.go:34-42) is not modelled as a timer. One round of it is `Pipes.Pipes.Spawn`, and the one-second sleep between rounds is left out.
- Locks are not modelled: every `sync.RWMutex`, and the read lock that `pipes.update` takes while it replaces the list (pipes.go:74). The model is sequential.
- `pipe.touch` (pipes.go:135-139) is not modelled as its own member. It only takes the pipe's lock and forwards to `bird.touch`, so `Pipes.Pipes.Touch` calls `Bird.Bird.Touch` directly.
- Floating point is not modelled. Speed is an exact count of tenths, so IEEE rounding when 0.1 is added repeatedly is not captured. For example, in `float64`, ten additions of 0.1 give 0.9999999999999999, which truncates to 0 pixels rather than 1.
- 32-bit wrap-around of `y`, `x` and `p.x` is not modelled, and neither is the 64-bit `time` counter. Pipes never go below x = -50. For a living bird, a jump is the only upward push, and it gives at most 5 pixels per tick. A bounce off the floor kills the bird, and `Scene.Scene.Tick` restarts a dead bird on the same tick. So within the scene, `y` could wrap only after hundreds of millions of ticks.
- The random number generator is not modelled: its results are parameters.
- `log.Printf` for unknown events is not modelled; those events are otherwise no-ops and are modelled as such.
- Pointer identity of pipes is not modelled. `pipes.update` also moves the pipes it drops, but nothing can observe those pipes afterwards.
