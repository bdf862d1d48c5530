/** The field of pipes: an ordered list (spawn order, which is also left-to-right
    order on screen) that scrolls left every tick, drops the pipes that have left the
    window, grows by one pipe per spawn, and is tested against the bird. */
module Pipes {
  import opened Pipe
  import opened Bird

  /** Every pipe scrolled left by `d` pixels, in the same order. */
  function Shift(ps: seq<Pipe>, d: int): seq<Pipe> {
    seq(|ps|, i requires 0 <= i < |ps| => Moved(ps[i], d))
  }

  /** The pipes still on screen, in their original order. */
  function Survivors(ps: seq<Pipe>): (r: seq<Pipe>)
    ensures |r| <= |ps|
    ensures forall i :: 0 <= i < |r| ==> OnScreen(r[i])
    ensures forall p :: p in r <==> p in ps && OnScreen(p)
  {
    if ps == [] then [] else (if OnScreen(ps[0]) then [ps[0]] else []) + Survivors(ps[1..])
  }

  /** The list that pipes.update leaves behind. */
  function Scrolled(ps: seq<Pipe>, speed: int): seq<Pipe> {
    Survivors(Shift(ps, speed))
  }

  /** `n` calls of pipes.update with no spawn in between. */
  function ScrolledN(ps: seq<Pipe>, speed: int, n: nat): seq<Pipe>
    decreases n
  {
    if n == 0 then ps else Scrolled(ScrolledN(ps, speed, n - 1), speed)
  }

  /** Filtering distributes over concatenation: survivors keep their relative order,
      and each pipe's fate depends on that pipe alone. */
  lemma {:induction false} SurvivorsAppend(a: seq<Pipe>, b: seq<Pipe>)
    ensures Survivors(a + b) == Survivors(a) + Survivors(b)
    decreases |a|
  {
    if a == [] {
      assert a + b == b;
    } else {
      assert (a + b)[0] == a[0];
      assert (a + b)[1..] == a[1..] + b;
      SurvivorsAppend(a[1..], b);
    }
  }

  /** The filter removes nothing exactly when every pipe is on screen. */
  lemma {:induction false} SurvivorsKeepsOnScreen(ps: seq<Pipe>)
    ensures Survivors(ps) == ps <==> forall i :: 0 <= i < |ps| ==> OnScreen(ps[i])
    decreases |ps|
  {
    if ps != [] {
      SurvivorsKeepsOnScreen(ps[1..]);
      if !OnScreen(ps[0]) {
        assert |Survivors(ps)| <= |ps[1..]| < |ps|;
      } else if forall i :: 0 <= i < |ps| ==> OnScreen(ps[i]) {
        assert forall i :: 0 <= i < |ps[1..]| ==> OnScreen(ps[1..][i]);
        assert ps == [ps[0]] + ps[1..];
      }
    }
  }

  /** Filtering twice is filtering once. */
  lemma SurvivorsIdempotent(ps: seq<Pipe>)
    ensures Survivors(Survivors(ps)) == Survivors(ps)
  {
    SurvivorsKeepsOnScreen(Survivors(ps));
  }

  /** Shifting distributes over concatenation. */
  lemma ShiftAppend(a: seq<Pipe>, b: seq<Pipe>, d: int)
    ensures Shift(a + b, d) == Shift(a, d) + Shift(b, d)
  {
  }

  /** One more pipe at the end of the list: it is moved, and kept at the end only if
      it is still on screen. */
  lemma ScrolledSnoc(a: seq<Pipe>, p: Pipe, speed: int)
    ensures Scrolled(a + [p], speed) ==
      Scrolled(a, speed) + (if OnScreen(Moved(p, speed)) then [Moved(p, speed)] else [])
  {
    ShiftAppend(a, [p], speed);
    SurvivorsAppend(Shift(a, speed), Shift([p], speed));
    assert Survivors(Shift([p], speed)) == (if OnScreen(Moved(p, speed)) then [Moved(p, speed)] else []) by {
      assert Shift([p], speed)[1..] == [];
    }
  }

  /** pipes.update keeps relative order across any split of the list. */
  lemma ScrolledAppend(a: seq<Pipe>, b: seq<Pipe>, speed: int)
    ensures Scrolled(a + b, speed) == Scrolled(a, speed) + Scrolled(b, speed)
  {
    ShiftAppend(a, b, speed);
    SurvivorsAppend(Shift(a, speed), Shift(b, speed));
  }

  /** Every pipe left after pipes.update is an old pipe moved left by exactly `speed`,
      with its height, width and orientation unchanged; and every old pipe whose moved
      copy is still on screen is among them. */
  lemma ScrolledMoves(ps: seq<Pipe>, speed: int)
    ensures forall q :: q in Scrolled(ps, speed) ==>
      OnScreen(q) && exists p :: p in ps && q == Moved(p, speed)
    ensures forall p :: p in ps && OnScreen(Moved(p, speed)) ==> Moved(p, speed) in Scrolled(ps, speed)
    ensures |Scrolled(ps, speed)| <= |ps|
  {
    var sh := Shift(ps, speed);
    forall q | q in Scrolled(ps, speed)
      ensures exists p :: p in ps && q == Moved(p, speed)
    {
      var i :| 0 <= i < |sh| && sh[i] == q;
      assert ps[i] in ps;
    }
    forall p | p in ps && OnScreen(Moved(p, speed))
      ensures Moved(p, speed) in Scrolled(ps, speed)
    {
      var i :| 0 <= i < |ps| && ps[i] == p;
      assert sh[i] == Moved(p, speed);
    }
  }

  /** A pipe as the spawner makes it and as it stays while it is in the list. */
  predicate Placed(p: Pipe) {
    && OnScreen(p)
    && p.x <= ScreenWidth
    && p.w == Width
    && MinHeight <= p.h < MinHeight + HeightSpread
  }

  /** Scrolling left by a non-negative speed keeps every kept pipe placed. */
  lemma ScrolledKeepsPlaced(ps: seq<Pipe>, speed: int)
    requires speed >= 0
    requires forall p :: p in ps ==> Placed(p)
    ensures forall q :: q in Scrolled(ps, speed) ==> Placed(q)
  {
    ScrolledMoves(ps, speed);
  }

  /** A list of one pipe, scrolled once. */
  lemma ScrolledSingle(q: Pipe, speed: int)
    ensures Scrolled([q], speed) == if OnScreen(Moved(q, speed)) then [Moved(q, speed)] else []
    ensures Scrolled([], speed) == []
  {
  }

  lemma MulStep(k: int, speed: int)
    ensures k * speed == (k - 1) * speed + speed
  {
  }

  /** A single pipe moving at `speed` pixels per tick is still there, moved by
      k * speed, after each of the first k updates exactly while its right edge
      stays on screen, and gone from then on. */
  lemma {:induction false} OnePipeLifetime(p: Pipe, speed: int, k: nat)
    requires speed >= 0 && OnScreen(p)
    ensures ScrolledN([p], speed, k) ==
      if p.x - k * speed + p.w > 0 then [Moved(p, k * speed)] else []
    decreases k
  {
    if k > 0 {
      OnePipeLifetime(p, speed, k - 1);
      var before, after := (k - 1) * speed, k * speed;
      MulStep(k, speed);
      var prev := ScrolledN([p], speed, k - 1);
      assert ScrolledN([p], speed, k) == Scrolled(prev, speed);
      if p.x - before + p.w > 0 {
        assert prev == [Moved(p, before)];
        ScrolledSingle(Moved(p, before), speed);
        assert Moved(Moved(p, before), speed) == Moved(p, after);
      } else {
        assert prev == [];
        ScrolledSingle(p, speed);
        assert p.x - after + p.w <= 0;
      }
    }
  }

  /** A freshly spawned pipe, at the speed the field is created with, survives the
      first 849 updates (the last of them leaves it at x = -49, its right edge at 1)
      and is dropped by the 850th. */
  lemma NewPipeLifetime(offset: int, inverted: bool, k: nat)
    requires 0 <= offset < HeightSpread
    ensures ScrolledN([NewPipe(offset, inverted)], 1, k) ==
      if k < 850 then [NewPipe(offset, inverted).(x := ScreenWidth - k)] else []
  {
    OnePipeLifetime(NewPipe(offset, inverted), 1, k);
  }

  /** The fold of bird.touch over the list: some pipe hits the bird. */
  predicate HitsAny(b: BirdState, ps: seq<Pipe>)
    ensures HitsAny(b, ps) <==> exists i :: 0 <= i < |ps| && Hits(b, ps[i])
  {
    ps != [] && (Hits(b, ps[0]) || HitsAny(b, ps[1..]))
  }

  /** The bird pipes.touch leaves behind: dead if it was, or if any pipe hits it. */
  function Collided(b: BirdState, ps: seq<Pipe>): BirdState {
    b.(dead := b.dead || HitsAny(b, ps))
  }

  /** Testing one more pipe at the end of the list. */
  lemma HitsAnySnoc(b: BirdState, a: seq<Pipe>, p: Pipe)
    ensures HitsAny(b, a + [p]) == (HitsAny(b, a) || Hits(b, p))
  {
    var c := a + [p];
    if HitsAny(b, a) {
      var i :| 0 <= i < |a| && Hits(b, a[i]);
      assert c[i] == a[i];
    }
    if Hits(b, p) {
      assert c[|a|] == p;
    }
    if HitsAny(b, c) {
      var i :| 0 <= i < |c| && Hits(b, c[i]);
      if i < |a| {
        assert c[i] == a[i];
      }
    }
  }

  /** The order of the pipes does not matter to the collision test. */
  lemma HitsAnyOrderFree(b: BirdState, a: seq<Pipe>, c: seq<Pipe>)
    requires multiset(a) == multiset(c)
    ensures HitsAny(b, a) == HitsAny(b, c)
  {
    if HitsAny(b, a) {
      var i :| 0 <= i < |a| && Hits(b, a[i]);
      assert a[i] in multiset(c);
      var j :| 0 <= j < |c| && c[j] == a[i];
    }
    if HitsAny(b, c) {
      var j :| 0 <= j < |c| && Hits(b, c[j]);
      assert c[j] in multiset(a);
      var i :| 0 <= i < |a| && a[i] == c[j];
    }
  }

  /** The pipes record of pipes.go, without its texture. */
  class Pipes {
    const speed: int
    var pipes: seq<Pipe>

    /** The speed is not negative, and every pipe in the list is placed: on screen
        (at least partly), at x <= 800, 50 wide and 100 to 149 high. How pipes move
        from one update to the next is `ScrolledMoves`. */
    ghost predicate Valid()
      reads this
    {
      speed >= 0 && forall p :: p in pipes ==> Placed(p)
    }

    /** newPipes, without loading the texture or starting the spawner. */
    constructor ()
      ensures Valid() && speed == 1 && pipes == []
    {
      speed := 1;
      pipes := [];
    }

    /** One round of the spawner: append a new pipe at the tail of the list. */
    method Spawn(offset: int, inverted: bool)
      requires Valid() && 0 <= offset < HeightSpread
      modifies this`pipes
      ensures Valid()
      ensures pipes == old(pipes) + [NewPipe(offset, inverted)]
    {
      pipes := pipes + [NewPipe(offset, inverted)];
    }

    /** Test the bird against every pipe, without stopping at the first hit. */
    method Touch(b: Bird)
      modifies b`dead
      ensures b.State() == Collided(old(b.State()), pipes)
    {
      for i := 0 to |pipes|
        invariant b.State() == Collided(old(b.State()), pipes[..i])
      {
        HitsAnySnoc(old(b.State()), pipes[..i], pipes[i]);
        assert pipes[..i + 1] == pipes[..i] + [pipes[i]];
        b.Touch(pipes[i]);
      }
      assert pipes[..|pipes|] == pipes;
    }

    method Restart()
      requires Valid()
      modifies this`pipes
      ensures Valid() && pipes == []
    {
      pipes := [];
    }

    /** Move every pipe left by `speed` and keep, in order, those still on screen. */
    method Update()
      requires Valid()
      modifies this`pipes
      ensures Valid()
      ensures pipes == Scrolled(old(pipes), speed)
    {
      var ps := pipes;
      var rem: seq<Pipe> := [];
      for i := 0 to |ps|
        invariant rem == Scrolled(ps[..i], speed)
      {
        var p := Moved(ps[i], speed);
        ScrolledSnoc(ps[..i], ps[i], speed);
        assert ps[..i + 1] == ps[..i] + [ps[i]];
        if p.x + p.w > 0 {
          rem := rem + [p];
        }
      }
      assert ps[..|ps|] == ps;
      ScrolledKeepsPlaced(ps, speed);
      pipes := rem;
    }
  }
}
