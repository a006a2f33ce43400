/** The game of Part 7 (EvilCLutches-Part-7.py): the dragon, the patrolling
    boss, the demons it spawns and the fireballs the dragon breathes, advanced
    one tick of the game loop at a time. Every outside input of a tick (held
    keys, SPACE key-downs, the spawn roll, the clock and the outcome of the
    mask collision test) is a parameter of `Game.Tick`. */
module Part7 {
  import opened Sprites
  import opened Frames
  import opened Animation
  import opened Motion
  import opened Groups

  /** What a projectile shows: a fireball a static picture, a demon its own
      animation (each demon carries its own frame list and counter). */
  datatype Look = Static(image: Image) | Animated(anim: Anim)

  /** A sprite of the fireball or demon group. */
  datatype Projectile = Projectile(rect: Rect, speed: int, look: Look)

  const FireballImage := Picture("fireball.png")

  /** A demon as the game keeps it: animated, with its animation invariant. */
  predicate DemonReady(d: Projectile) {
    d.look.Animated? && Ready(d.look.anim)
  }

  /** The `Fireball` constructor for a dragon at (x, y). Its offsets are float
      expressions; evaluated exactly, `(135 + 135 * 0.74) // 2 - 50 // 2` is 92
      and `(150 - 135 * 0.67) // 2 - 48 // 2` is 5. */
  function FireballSpawn(x: int, y: int): (p: Projectile)
    ensures p.rect == Rect(x + 92, y + 5, FireballWidth, FireballHeight)
    ensures p.speed == FireballSpeed && p.look == Static(FireballImage)
  {
    var offsetX := ((DragonWidth as real + DragonWidth as real * 0.74) / 2.0).Floor - FireballWidth / 2;
    var offsetY := ((DragonHeight as real - DragonWidth as real * 0.67) / 2.0).Floor - FireballHeight / 2;
    Projectile(Rect(x + offsetX, y + offsetY, FireballWidth, FireballHeight),
               FireballSpeed, Static(FireballImage))
  }

  /** `n` fireballs from a dragon at (x, y), one per SPACE key-down. */
  function Volley(x: int, y: int, n: nat): seq<Projectile> {
    seq(n, _ => FireballSpawn(x, y))
  }

  /** The `Demon` constructor for a boss at (x, y) at clock value `now`: the
      demon is centred on the boss with Python's floor division, gets its own
      four demon frames, starts at frame 0 and moves left. */
  function DemonSpawn(x: int, y: int, now: int): (d: Projectile)
    ensures d.rect == Rect(x + 2, y + 12, DemonWidth, DemonHeight)
    ensures d.speed == DemonSpeed
    ensures DemonReady(d) && d.look.anim.index == 0 && d.look.anim.lastTime == now
    ensures d.look.anim.frames == SliceSheet("demon.png", DemonWidth, DemonHeight, DemonFrameCount)
  {
    SliceSheetFrames("demon.png", DemonWidth, DemonHeight, DemonFrameCount);
    var frames := SliceSheet("demon.png", DemonWidth, DemonHeight, DemonFrameCount);
    var rect := Rect(x + BossWidth / 2 - DemonWidth / 2, y + BossHeight / 2 - DemonHeight / 2,
                     DemonWidth, DemonHeight);
    Projectile(rect, DemonSpeed, Animated(Anim(frames, 0, now, frames[0])))
  }

  /** `Projectile.update`'s move: the rectangle's x advances by the speed and
      nothing else changes, so a demon keeps its animation invariant. */
  function Moved(p: Projectile): Projectile {
    p.(rect := p.rect.(x := p.rect.x + p.speed))
  }

  /** The lifetime check after the move: the sprite is kept while its x lies
      in the closed interval [-width, window width], that is while its closed
      horizontal span still meets the window's. */
  predicate OnScreen(p: Projectile) {
    WindowWidth >= p.rect.x >= 0 - p.rect.width
  }

  /** What `Projectile.update` does to one sprite: the move shifts the
      rectangle horizontally by the speed and changes nothing else, so a
      demon keeps its animation invariant; the sprite is then kept exactly
      while its closed horizontal span `[x, x + width]` still meets the
      window's. */
  lemma ProjectileUpdate(p: Projectile)
    ensures Moved(p).rect.x - p.rect.x == p.speed && Moved(p).rect.y == p.rect.y
    ensures Moved(p).rect.width == p.rect.width && Moved(p).rect.height == p.rect.height
    ensures Moved(p).speed == p.speed && Moved(p).look == p.look
    ensures DemonReady(p) ==> DemonReady(Moved(p))
    ensures OnScreen(p) <==> p.rect.x <= WindowWidth && 0 <= p.rect.x + p.rect.width
  {
  }

  /** `animate_sprite` on one demon. */
  function AnimateDemon(d: Projectile, now: int): (r: Projectile)
    requires DemonReady(d)
    ensures DemonReady(r) && r.rect == d.rect && r.speed == d.speed
  {
    d.(look := Animated(AnimateSprite(d.look.anim, now)))
  }

  /** The loop over the demon group that animates each demon in turn; every
      demon advances on its own timestamp. */
  method AnimateDemons(ds: seq<Projectile>, now: int) returns (r: seq<Projectile>)
    requires forall d :: d in ds ==> DemonReady(d)
    ensures |r| == |ds|
    ensures forall i :: 0 <= i < |ds| ==> r[i] == AnimateDemon(ds[i], now)
  {
    r := ds;
    var i := 0;
    while i < |r|
      invariant 0 <= i <= |r| == |ds|
      invariant forall k :: 0 <= k < i ==> r[k] == AnimateDemon(ds[k], now)
      invariant forall k :: i <= k < |r| ==> r[k] == ds[k]
    {
      r := r[i := AnimateDemon(r[i], now)];
      i := i + 1;
    }
  }

  /** The state of the game: the dragon, the boss, the two projectile groups
      and whether the loop is still running. */
  class Game {
    var running: bool
    const dragonX: int
    var dragonY: int
    var dragonRect: Rect
    var dragonAnim: Anim
    const bossX: int
    var bossY: int
    var bossRect: Rect
    var bossDirection: int
    var bossLastSpawn: int
    var bossAnim: Anim
    var demons: seq<Projectile>
    var fireballs: seq<Projectile>

    /** The rectangles follow the positions, the boss patrols its band, and
        every animation keeps its invariant. */
    ghost predicate Valid()
      reads this
    {
      dragonRect == Rect(dragonX, dragonY, DragonWidth, DragonHeight) &&
      bossRect == Rect(bossX, bossY, BossWidth, BossHeight) &&
      BossInv(Patrol(bossY, bossDirection)) &&
      Ready(dragonAnim) && Ready(bossAnim) &&
      (forall d :: d in demons ==> DemonReady(d))
    }

    /** `main`'s set-up: the dragon at the top left, the boss at the top right
        going down, both at their first frame, no projectiles. All clock
        readings of the set-up are `now`. */
    constructor (now: int)
      ensures Valid() && running
      ensures dragonX == 0 && dragonY == 0
      ensures dragonAnim.frames == SliceSheet("dragon.png", DragonWidth, DragonHeight, DragonFrameCount)
      ensures dragonAnim.index == 0 && dragonAnim.lastTime == now
      ensures bossX == WindowWidth - BossWidth && bossY == 0 && bossDirection == 1
      ensures bossAnim.frames == SliceSheet("boss.png", BossWidth, BossHeight, BossFrameCount)
      ensures bossAnim.index == 0 && bossAnim.lastTime == now && bossLastSpawn == now
      ensures demons == [] && fireballs == []
    {
      var dragonFrames := InitAnimationFrames("dragon.png", DragonWidth, DragonHeight, DragonFrameCount);
      var bossFrames := InitAnimationFrames("boss.png", BossWidth, BossHeight, BossFrameCount);
      running := true;
      dragonX, dragonY := 0, 0;
      dragonRect := Rect(0, 0, DragonWidth, DragonHeight);
      dragonAnim := Anim(dragonFrames, 0, now, dragonFrames[0]);
      bossX, bossY := WindowWidth - BossWidth, 0;
      bossRect := Rect(WindowWidth - BossWidth, 0, BossWidth, BossHeight);
      bossDirection := 1;
      bossLastSpawn := now;
      bossAnim := Anim(bossFrames, 0, now, bossFrames[0]);
      demons, fireballs := [], [];
    }

    /** `Dragon.update`: one fireball per SPACE key-down, from the position
        before the move; then W and S move the dragon and its rectangle
        follows. Its x never changes and nothing clamps its y. */
    method DragonUpdate(spaceDowns: nat, holdW: bool, holdS: bool)
      requires Valid()
      modifies this`dragonY, this`dragonRect, this`fireballs
      ensures Valid()
      ensures fireballs == old(fireballs) + Volley(dragonX, old(dragonY), spaceDowns)
      ensures dragonY == DragonMove(old(dragonY), holdW, holdS)
    {
      var k := 0;
      while k < spaceDowns
        invariant 0 <= k <= spaceDowns
        invariant dragonY == old(dragonY) && dragonRect == old(dragonRect)
        invariant fireballs == old(fireballs) + Volley(dragonX, dragonY, k)
      {
        assert Volley(dragonX, dragonY, k + 1) == Volley(dragonX, dragonY, k) + [FireballSpawn(dragonX, dragonY)];
        fireballs := fireballs + [FireballSpawn(dragonX, dragonY)];
        k := k + 1;
      }
      if holdW {
        dragonY := dragonY - DragonSpeed;
      }
      if holdS {
        dragonY := dragonY + DragonSpeed;
      }
      dragonRect := dragonRect.(y := dragonY);
    }

    /** `Boss.update`: the patrol move and bounce, then the spawn trial. */
    method BossUpdate(roll: int, now: int)
      requires Valid()
      modifies this`bossY, this`bossRect, this`bossDirection, this`bossLastSpawn, this`demons
      ensures Valid()
      ensures Patrol(bossY, bossDirection) == BossMove(old(Patrol(bossY, bossDirection)))
      ensures SpawnGate(roll, now, old(bossLastSpawn)) ==>
        bossLastSpawn == now && demons == old(demons) + [DemonSpawn(bossX, bossY, now)]
      ensures !SpawnGate(roll, now, old(bossLastSpawn)) ==>
        bossLastSpawn == old(bossLastSpawn) && demons == old(demons)
    {
      BossMoveKeepsInv(Patrol(bossY, bossDirection));
      bossY := bossY + bossDirection * BossSpeed;
      bossRect := bossRect.(y := bossY);
      if bossRect.Top() <= 0 {
        bossDirection := 1;
      } else if bossRect.Bottom() >= WindowHeight {
        bossDirection := -1;
      }
      SpawnObjects(roll, now);
    }

    /** `Boss.spawn_objects`: a demon is added at the boss's current position,
        and the spawn time reset, exactly when the gate opens. */
    method SpawnObjects(roll: int, now: int)
      requires Valid()
      modifies this`bossLastSpawn, this`demons
      ensures Valid()
      ensures SpawnGate(roll, now, old(bossLastSpawn)) ==>
        bossLastSpawn == now && demons == old(demons) + [DemonSpawn(bossX, bossY, now)]
      ensures !SpawnGate(roll, now, old(bossLastSpawn)) ==>
        bossLastSpawn == old(bossLastSpawn) && demons == old(demons)
    {
      if roll <= 1 {
        if now - bossLastSpawn > DemonSpawnInterval {
          bossLastSpawn := now;
          demons := demons + [DemonSpawn(bossX, bossY, now)];
        }
      }
    }

    /** `check_collisions`: the fireballs and demons the mask test reports as
        hit (given by their indices in the groups) are killed. */
    method CheckCollisions(fireballHits: set<int>, demonHits: set<int>)
      requires Valid()
      modifies this`fireballs, this`demons
      ensures Valid()
      ensures fireballs == Without(old(fireballs), fireballHits)
      ensures demons == Without(old(demons), demonHits)
    {
      WithoutKeeps(fireballs, fireballHits);
      WithoutKeeps(demons, demonHits);
      fireballs := Without(fireballs, fireballHits);
      demons := Without(demons, demonHits);
    }

    /** `animate_sprite` on the dragon, the boss and then each demon. */
    method AnimateSprites(now: int)
      requires Valid()
      modifies this`dragonAnim, this`bossAnim, this`demons
      ensures Valid()
      ensures dragonAnim == AnimateSprite(old(dragonAnim), now)
      ensures bossAnim == AnimateSprite(old(bossAnim), now)
      ensures |demons| == |old(demons)|
      ensures forall i :: 0 <= i < |demons| ==> demons[i] == AnimateDemon(old(demons)[i], now)
    {
      dragonAnim := AnimateSprite(dragonAnim, now);
      bossAnim := AnimateSprite(bossAnim, now);
      demons := AnimateDemons(demons, now);
    }

    /** `update` on every sprite of the demon group and of the fireball group. */
    method UpdateGroups()
      requires Valid()
      modifies this`demons, this`fireballs
      ensures Valid()
      ensures demons == Survivors(old(demons), Moved, OnScreen)
      ensures fireballs == Survivors(old(fireballs), Moved, OnScreen)
    {
      SurvivorsKeep(demons, Moved, OnScreen, DemonReady);
      demons := UpdateGroup(demons, Moved, OnScreen);
      fireballs := UpdateGroup(fireballs, Moved, OnScreen);
    }

    /** The "update all sprites" step of the loop: the dragon, the boss, the
        demon group and the fireball group, in that order, so that a
        projectile created in this step already moves in it. */
    method UpdateSprites(holdW: bool, holdS: bool, spaceDowns: nat, roll: int, now: int)
      requires Valid()
      modifies this`dragonY, this`dragonRect, this`fireballs,
               this`bossY, this`bossRect, this`bossDirection, this`bossLastSpawn, this`demons
      ensures Valid()
      ensures dragonY == DragonMove(old(dragonY), holdW, holdS)
      ensures Patrol(bossY, bossDirection) == BossMove(old(Patrol(bossY, bossDirection)))
      ensures bossLastSpawn == if SpawnGate(roll, now, old(bossLastSpawn)) then now else old(bossLastSpawn)
      ensures fireballs == Survivors(old(fireballs) + Volley(dragonX, old(dragonY), spaceDowns), Moved, OnScreen)
      ensures demons == Survivors(old(demons) +
        (if SpawnGate(roll, now, old(bossLastSpawn)) then [DemonSpawn(bossX, bossY, now)] else []), Moved, OnScreen)
    {
      DragonUpdate(spaceDowns, holdW, holdS);
      ghost var volleyed := fireballs;
      BossUpdate(roll, now);
      ghost var spawned := demons;
      assert spawned == old(demons) +
        if SpawnGate(roll, now, old(bossLastSpawn)) then [DemonSpawn(bossX, bossY, now)] else [];
      UpdateGroups();
      assert demons == Survivors(spawned, Moved, OnScreen) && fireballs == Survivors(volleyed, Moved, OnScreen);
    }

    /** The collision step followed by the animation step; a demon is
        animated after the collision test has killed the ones it hit. */
    method ResolveAndAnimate(fireballHits: set<int>, demonHits: set<int>, now: int)
      requires Valid()
      modifies this`fireballs, this`demons, this`dragonAnim, this`bossAnim
      ensures Valid()
      ensures fireballs == Without(old(fireballs), fireballHits)
      ensures var hit := Without(old(demons), demonHits);
        |demons| == |hit| &&
        forall i :: 0 <= i < |hit| ==> DemonReady(hit[i]) && demons[i] == AnimateDemon(hit[i], now)
      ensures dragonAnim == AnimateSprite(old(dragonAnim), now)
      ensures bossAnim == AnimateSprite(old(bossAnim), now)
    {
      CheckCollisions(fireballHits, demonHits);
      ghost var hit := demons;
      assert forall i :: 0 <= i < |hit| ==> DemonReady(hit[i]) by {
        assert forall i :: 0 <= i < |hit| ==> hit[i] in hit;
      }
      AnimateSprites(now);
    }

    /** One iteration of `main`'s loop: a QUIT event ends the loop after this
        tick; the sprites are updated, collisions resolved and the sprites
        animated. Drawing, the display update and the frame-rate cap are
        left out. */
    method Tick(quit: bool, holdW: bool, holdS: bool, spaceDowns: nat, roll: int, now: int,
                fireballHits: set<int>, demonHits: set<int>)
      requires Valid() && running
      requires 0 <= roll < 150
      modifies this`running, this`dragonY, this`dragonRect, this`fireballs, this`bossY, this`bossRect, this`bossDirection,
               this`bossLastSpawn, this`demons, this`dragonAnim, this`bossAnim
      ensures Valid()
      ensures running == !quit
      ensures dragonY == DragonMove(old(dragonY), holdW, holdS)
      ensures Patrol(bossY, bossDirection) == BossMove(old(Patrol(bossY, bossDirection)))
      ensures bossLastSpawn == if SpawnGate(roll, now, old(bossLastSpawn)) then now else old(bossLastSpawn)
      ensures fireballs ==
        Without(Survivors(old(fireballs) + Volley(dragonX, old(dragonY), spaceDowns), Moved, OnScreen), fireballHits)
      ensures var spawned := if SpawnGate(roll, now, old(bossLastSpawn)) then [DemonSpawn(bossX, bossY, now)] else [];
        var hit := Without(Survivors(old(demons) + spawned, Moved, OnScreen), demonHits);
        |demons| == |hit| &&
        forall i :: 0 <= i < |hit| ==> DemonReady(hit[i]) && demons[i] == AnimateDemon(hit[i], now)
      ensures dragonAnim == AnimateSprite(old(dragonAnim), now)
      ensures bossAnim == AnimateSprite(old(bossAnim), now)
    {
      if quit {
        running := false;
      }
      UpdateSprites(holdW, holdS, spaceDowns, roll, now);
      ResolveAndAnimate(fireballHits, demonHits, now);
    }
  }
}
