/** The per-tick movement rules shared by Parts 6 and 7: the dragon's
    vertical step from the held keys, the boss's reflecting patrol and the
    boss's spawn gate. The code of `Dragon.update`, `Boss.update` and
    `Boss.spawn_objects` is the same in both parts (Part 6 writes the spawn
    cooldown as the literal 150, Part 7 as `DEMON_SPAWN_INTERVAL`). */
module Motion {
  import opened Sprites

  /** The dragon's new y from the held W and S keys: W moves up and S down by
      the dragon's speed, both held cancel out, and nothing clamps the result
      to the window. */
  function DragonMove(y: int, holdW: bool, holdS: bool): (r: int)
    ensures holdW == holdS ==> r == y
    ensures holdW && !holdS ==> r == y - DragonSpeed
    ensures holdS && !holdW ==> r == y + DragonSpeed
  {
    var up := if holdW then y - DragonSpeed else y;
    if holdS then up + DragonSpeed else up
  }

  /** The boss's vertical position and direction (1 is down, -1 is up). */
  datatype Patrol = Patrol(y: int, direction: int)

  /** The boss's movement in one `Boss.update`: it moves one speed step in
      its direction, its rectangle follows, and the direction becomes down
      once the top edge is at or above the window's top, otherwise up once the
      bottom edge is at or below the window's bottom, otherwise stays. The
      top check is made first. */
  function BossMove(p: Patrol): (r: Patrol)
    ensures r.y == p.y + p.direction * BossSpeed
    ensures r.y <= 0 ==> r.direction == 1
    ensures 0 < r.y && WindowHeight <= r.y + BossHeight ==> r.direction == -1
    ensures 0 < r.y && r.y + BossHeight < WindowHeight ==> r.direction == p.direction
  {
    var y := p.y + p.direction * BossSpeed;
    var rect := Rect(WindowWidth - BossWidth, y, BossWidth, BossHeight);
    var direction :=
      if rect.Top() <= 0 then 1
      else if rect.Bottom() >= WindowHeight then -1
      else p.direction;
    Patrol(y, direction)
  }

  /** The lowest y the boss reaches: the first multiple of the speed at which
      its bottom edge is at or below the window's bottom. */
  const BossLowest := 318

  /** What holds of the boss at every tick, starting from the top going down:
      its y is a multiple of its speed within [0, BossLowest], its direction is
      1 or -1, and at either end it is already turned back. */
  predicate BossInv(p: Patrol) {
    p.y % BossSpeed == 0 && 0 <= p.y <= BossLowest &&
    (p.direction == 1 || p.direction == -1) &&
    (p.y == 0 ==> p.direction == 1) &&
    (p.y == BossLowest ==> p.direction == -1)
  }

  /** A move keeps the boss in its band. */
  lemma BossMoveKeepsInv(p: Patrol)
    requires BossInv(p)
    ensures BossInv(BossMove(p))
  {
    var r := BossMove(p);
    if p.direction == 1 {
      assert r.y == p.y + 6;
      assert r.y + BossHeight >= WindowHeight <==> r.y == BossLowest;
    } else {
      assert r.y == p.y - 6;
    }
  }

  /** The boss after `n` ticks, from the start position y = 0 going down. */
  function BossAfter(n: nat): Patrol {
    if n == 0 then Patrol(0, 1) else BossMove(BossAfter(n - 1))
  }

  /** From the start position, the boss's y is always a multiple of 6 in
      [0, 318] and its direction always 1 or -1. */
  lemma {:induction false} BossStaysInBand(n: nat)
    ensures BossInv(BossAfter(n))
    ensures BossAfter(n).y % BossSpeed == 0 && 0 <= BossAfter(n).y <= BossLowest
    ensures BossAfter(n).direction in {1, -1}
  {
    if n > 0 {
      BossStaysInBand(n - 1);
      BossMoveKeepsInv(BossAfter(n - 1));
    }
  }

  /** The first descent: for 53 ticks the boss moves down 6 pixels a tick and
      turns at y = 318, where its bottom edge is 3 pixels below the window. */
  lemma {:induction false} BossFirstDescent(n: nat)
    requires n <= 53
    ensures BossAfter(n) == Patrol(BossSpeed * n, if n == 53 then -1 else 1)
    ensures n == 53 ==> BossAfter(n).y + BossHeight == WindowHeight + 3
  {
    if n > 0 {
      BossFirstDescent(n - 1);
    }
  }

  /** Milliseconds that must pass between two demon spawns (strictly more). */
  const DemonSpawnInterval := 150

  /** `spawn_objects`' gate: the roll of `randrange(150)` is at most 1 and
      strictly more than the cooldown has passed since the last spawn. */
  predicate SpawnGate(roll: int, now: int, lastSpawn: int) {
    roll <= 1 && now - lastSpawn > DemonSpawnInterval
  }

  /** Of the 150 values `randrange(150)` can roll, the gate opens for exactly
      two (0 and 1) once the cooldown has passed, and for none before. */
  lemma SpawnGateOdds(now: int, lastSpawn: int)
    ensures (set roll | 0 <= roll < 150 && SpawnGate(roll, now, lastSpawn)) ==
      if now - lastSpawn > DemonSpawnInterval then {0, 1} else {}
  {
  }

  /** A spawn trial of one tick: the roll and the clock value. */
  datatype Trial = Trial(roll: int, now: int)

  /** The clock values at which demons spawn over a run of trials, starting
      from the last-spawn time `lastSpawn`; a spawn resets that time. */
  function SpawnTimes(lastSpawn: int, trials: seq<Trial>): seq<int>
    decreases |trials|
  {
    if trials == [] then []
    else if SpawnGate(trials[0].roll, trials[0].now, lastSpawn) then
      [trials[0].now] + SpawnTimes(trials[0].now, trials[1..])
    else
      SpawnTimes(lastSpawn, trials[1..])
  }

  /** At most one spawn per trial, and each spawn comes strictly more than the
      cooldown after the previous one (the first: after `lastSpawn`). */
  lemma {:induction false} SpawnTimesCooledDown(lastSpawn: int, trials: seq<Trial>)
    ensures |SpawnTimes(lastSpawn, trials)| <= |trials|
    ensures var s := SpawnTimes(lastSpawn, trials);
      (|s| > 0 ==> s[0] - lastSpawn > DemonSpawnInterval) &&
      forall i :: 0 < i < |s| ==> s[i] - s[i - 1] > DemonSpawnInterval
    decreases |trials|
  {
    if trials != [] {
      var t := trials[0];
      SpawnTimesCooledDown(if SpawnGate(t.roll, t.now, lastSpawn) then t.now else lastSpawn, trials[1..]);
      if SpawnGate(t.roll, t.now, lastSpawn) {
        var s := SpawnTimes(lastSpawn, trials);
        var rest := SpawnTimes(t.now, trials[1..]);
        assert s == [t.now] + rest;
        forall i | 0 < i < |s| ensures s[i] - s[i - 1] > DemonSpawnInterval {
          if i > 1 {
            assert s[i] == rest[i - 1] && s[i - 1] == rest[i - 2];
          }
        }
      }
    }
  }
}
