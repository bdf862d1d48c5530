/** The scene: it owns the bird and the pipes, advances them on every tick and
    answers input events. */
module Scene {
  import Arith
  import opened Pipe
  import opened Bird
  import opened Pipes

  /** The kinds of input event the scene tells apart; `Unknown` is every other kind. */
  datatype Event = Quit | Keyboard | Window | MouseMotion | Unknown

  /** One tick of the game as pure values: the bird falls, the pipes scroll, and the
      bird is tested against the pipes where they are now. */
  function Stepped(b: BirdState, ps: seq<Pipe>, speed: int): (BirdState, seq<Pipe>) {
    var moved := Scrolled(ps, speed);
    (Collided(Advance(b), moved), moved)
  }

  /** Collision is judged after the move: a pipe one pixel clear of the bird before
      the tick, scrolling into contact during it, kills the bird on that same tick. */
  lemma CollisionSameTick()
    ensures var b := BirdState(0, StartX, 100, BirdWidth, BirdHeight, 0, false);
            var p := Pipe(StartX + BirdWidth + 1, 120, Width, false);
            && !Hits(b, p)
            && Stepped(b, [p], 1).0.dead
  {
  }

  /** A tick ends with a dead bird only when it hit the floor or some pipe during
      that tick, or was already dead. */
  lemma {:induction false} DeathHasCause(b: BirdState, ps: seq<Pipe>, speed: int)
    ensures Stepped(b, ps, speed).0.dead <==>
      b.dead || b.y - Arith.TruncDiv(b.speed, Scale) < 0 ||
      exists i :: 0 <= i < |Scrolled(ps, speed)| && Hits(Advance(b), Scrolled(ps, speed)[i])
  {
  }

  /** The scene record, without its background texture. */
  class Scene {
    const bird: Bird
    const pipes: Pipes

    ghost predicate Valid()
      reads this, bird, pipes
    {
      bird.Valid() && pipes.Valid()
    }

    /** newScene, without loading textures. */
    constructor ()
      ensures Valid() && fresh(bird) && fresh(pipes)
      ensures bird.State() == BirdState(0, StartX, StartY, BirdWidth, BirdHeight, 0, false)
      ensures pipes.pipes == [] && pipes.speed == 1
    {
      bird := new Bird();
      pipes := new Pipes();
    }

    method Update()
      requires Valid()
      modifies bird, pipes
      ensures Valid()
      ensures (bird.State(), pipes.pipes) == Stepped(old(bird.State()), old(pipes.pipes), pipes.speed)
    {
      bird.Update();
      pipes.Update();
      pipes.Touch(bird);
    }

    method Restart()
      requires Valid()
      modifies bird, pipes
      ensures Valid()
      ensures bird.State() == Restarted(old(bird.State())) && pipes.pipes == []
    {
      bird.Restart();
      pipes.Restart();
    }

    /** The body of the game loop's tick: update, and on death start over. The
        "Game Over" title, the one-second pause and the painting are not modelled. */
    method Tick()
      requires Valid()
      modifies bird, pipes
      ensures Valid() && !bird.dead
      ensures var (b, ps) := Stepped(old(bird.State()), old(pipes.pipes), pipes.speed);
              if b.dead then bird.State() == Restarted(b) && pipes.pipes == []
              else bird.State() == b && pipes.pipes == ps
    {
      Update();
      var dead := bird.IsDead();
      if dead {
        Restart();
      }
    }

    /** Returns whether the game should end. Any keyboard event makes the bird jump,
        whether or not it is dead; every other event leaves the scene as it was. */
    method HandleEvent(e: Event) returns (done: bool)
      modifies bird
      ensures done <==> e == Quit
      ensures bird.State() == if e == Keyboard then old(bird.State()).(speed := -JumpSpeed) else old(bird.State())
    {
      match e {
        case Quit =>
          return true;
        case Keyboard =>
          bird.Jump();
        case Window =>
        case MouseMotion =>
        case Unknown =>
      }
      return false;
    }
  }
}
