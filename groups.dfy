/** pygame's `Group.update` on a projectile group: every sprite's `update`
    moves it and kills it once it has left the window. A group is modelled
    by the sequence of its sprites in insertion order; the move and the
    lifetime test are the sprite class's own, passed in. */
module Groups {

  /** The group after `Group.update`: every sprite stepped, the ones the
      lifetime test rejects killed, the rest in their order. */
  function Survivors<T>(ps: seq<T>, step: T -> T, alive: T -> bool): (r: seq<T>)
    ensures |r| <= |ps|
    decreases |ps|
  {
    if ps == [] then []
    else
      var q := step(ps[|ps| - 1]);
      Survivors(ps[..|ps| - 1], step, alive) + (if alive(q) then [q] else [])
  }

  /** Every survivor passed the lifetime test and is a sprite of the group
      stepped once. */
  lemma {:induction false} SurvivorsAreStepped<T>(ps: seq<T>, step: T -> T, alive: T -> bool)
    ensures forall q :: q in Survivors(ps, step, alive) ==> alive(q)
    ensures forall q :: q in Survivors(ps, step, alive) ==> exists p :: p in ps && q == step(p)
    decreases |ps|
  {
    if ps != [] {
      SurvivorsAreStepped(ps[..|ps| - 1], step, alive);
      assert forall p :: p in ps[..|ps| - 1] ==> p in ps;
    }
  }

  /** A property every sprite of the group has and the step keeps, every
      survivor has. */
  lemma {:induction false} SurvivorsKeep<T>(ps: seq<T>, step: T -> T, alive: T -> bool, inv: T -> bool)
    requires forall p :: p in ps ==> inv(p)
    requires forall p :: inv(p) ==> inv(step(p))
    ensures forall q :: q in Survivors(ps, step, alive) ==> inv(q)
    decreases |ps|
  {
    if ps != [] {
      SurvivorsKeep(ps[..|ps| - 1], step, alive, inv);
    }
  }

  /** Updating a group is updating its parts one after the other. */
  lemma {:induction false} SurvivorsAppend<T>(ps: seq<T>, qs: seq<T>, step: T -> T, alive: T -> bool)
    ensures Survivors(ps + qs, step, alive) == Survivors(ps, step, alive) + Survivors(qs, step, alive)
    decreases |qs|
  {
    if qs == [] {
      assert ps + qs == ps;
    } else {
      var last := |qs| - 1;
      assert (ps + qs)[..|ps + qs| - 1] == ps + qs[..last];
      assert (ps + qs)[|ps + qs| - 1] == qs[last];
      SurvivorsAppend(ps, qs[..last], step, alive);
    }
  }

  /** Each sprite's fate depends on itself alone: it stays, stepped, exactly
      when its stepped state passes the lifetime test, and the sprites around
      it are updated as if it were not there. */
  lemma SurvivorsOneByOne<T>(ps: seq<T>, p: T, qs: seq<T>, step: T -> T, alive: T -> bool)
    ensures Survivors(ps + [p] + qs, step, alive) ==
      Survivors(ps, step, alive) + (if alive(step(p)) then [step(p)] else []) + Survivors(qs, step, alive)
  {
    SurvivorsAppend(ps + [p], qs, step, alive);
    SurvivorsAppend(ps, [p], step, alive);
    assert [p][..0] == [];
  }

  /** `Group.update`: the loop calling each sprite's `update` in turn. */
  method UpdateGroup<T>(ps: seq<T>, step: T -> T, alive: T -> bool) returns (live: seq<T>)
    ensures live == Survivors(ps, step, alive)
  {
    live := [];
    var i := 0;
    while i < |ps|
      invariant 0 <= i <= |ps|
      invariant live == Survivors(ps[..i], step, alive)
    {
      var q := step(ps[i]);
      assert ps[..i + 1][..i] == ps[..i];
      if alive(q) {
        live := live + [q];
      }
      i := i + 1;
    }
    assert ps[..|ps|] == ps;
  }
}
