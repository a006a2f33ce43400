/** The game of Part 6 (EvilCLutches-Part-6.py). The movement rules are those
    of Part 7; what differs is how projectiles are made and how demons are
    animated. A projectile is built by one dictionary-driven function that
    centres it on its emitter and adds it to the group its dictionary names,
    and the animation state (frame index and timestamp) lives in local
    variables of the game loop, one pair for the dragon, one for the boss and
    one pair shared by all demons. */
module Part6 {
  import opened Sprites
  import opened Frames
  import opened Animation
  import opened Motion
  import opened Groups

  /** A sprite of the fireball or demon group: its image, its rectangle, its
      own copy of the position and its speed. */
  datatype Projectile = Projectile(image: Image, rect: Rect, xPos: int, yPos: int, speed: int)

  /** The group a projectile dictionary adds to. */
  datatype GroupName = FireballGroup | DemonGroup

  /** A projectile dictionary: its group, image, the size of the sprite that
      emits it, its own size and its speed. */
  datatype Kind = Kind(group: GroupName, image: Image, emitterWidth: int, emitterHeight: int,
                       width: int, height: int, speed: int)

  /** `fireball_dict`: emitted by the dragon, whose emitter box is taken as
      100 pixels wider than the dragon and 50 pixels high. The picture is
      scaled to 64 by 64 pixels, which only the unmodelled pixels see. */
  const FireballKind := Kind(FireballGroup, Picture("fireball.png"), DragonWidth + 100, 50,
                             FireballWidth, FireballHeight, FireballSpeed)

  /** The image of `demon_dict`: the only frame of a one-frame slice of the
      demon sheet. */
  function DemonPicture(): (img: Image)
    ensures img == Frame("demon.png", Rect(0, 0, DemonWidth, DemonHeight))
  {
    SliceSheetFrames("demon.png", DemonWidth, DemonHeight, 1);
    SliceSheet("demon.png", DemonWidth, DemonHeight, 1)[0]
  }

  /** `demon_dict`: emitted by the boss. */
  function DemonKind(): Kind {
    Kind(DemonGroup, DemonPicture(), BossWidth, BossHeight, DemonWidth, DemonHeight, DemonSpeed)
  }


  /** The sprite's rectangle sits at its own copy of the position. */
  predicate Synced(p: Projectile) {
    p.rect.x == p.xPos && p.rect.y == p.yPos
  }

  /** The projectile `create_projectile` builds for an emitter at (x, y):
      on each axis the floor-half of its size lands on the floor-half of the
      emitter's, it has the dictionary's image, size and speed, and its
      rectangle sits at its position. */
  function Spawned(x: int, y: int, kind: Kind): (p: Projectile)
    ensures p.xPos + kind.width / 2 == x + kind.emitterWidth / 2
    ensures p.yPos + kind.height / 2 == y + kind.emitterHeight / 2
    ensures Synced(p) && p.rect.width == kind.width && p.rect.height == kind.height
    ensures p.image == kind.image && p.speed == kind.speed
  {
    var objX := x + kind.emitterWidth / 2 - kind.width / 2;
    var objY := y + kind.emitterHeight / 2 - kind.height / 2;
    Projectile(kind.image, Rect(objX, objY, kind.width, kind.height), objX, objY, kind.speed)
  }

  /** A fireball starts 92 pixels right of and 1 pixel below the dragon's
      position (Part 7's float offsets put it 5 pixels below). */
  lemma FireballOffsets(x: int, y: int)
    ensures Spawned(x, y, FireballKind).rect == Rect(x + 92, y + 1, FireballWidth, FireballHeight)
    ensures Spawned(x, y, FireballKind).speed == FireballSpeed
  {
  }

  /** A demon starts 2 pixels right of and 12 pixels below the boss. */
  lemma DemonOffsets(x: int, y: int)
    ensures Spawned(x, y, DemonKind()).rect == Rect(x + 2, y + 12, DemonWidth, DemonHeight)
    ensures Spawned(x, y, DemonKind()).speed == DemonSpeed
    ensures Spawned(x, y, DemonKind()).image == Frame("demon.png", Rect(0, 0, DemonWidth, DemonHeight))
  {
  }

  /** `n` fireballs from a dragon at (x, y), one per SPACE key-down. */
  function Volley(x: int, y: int, n: nat): seq<Projectile> {
    seq(n, _ => Spawned(x, y, FireballKind))
  }

  /** `Projectile.update`'s move: `x_pos` and the rectangle's x both advance
      by the speed. */
  function Moved(p: Projectile): Projectile {
    p.(xPos := p.xPos + p.speed, rect := p.rect.(x := p.rect.x + p.speed))
  }

  /** The lifetime check after the move, on `x_pos`: kept while it lies in
      the closed interval [-width, window width]. */
  predicate OnScreen(p: Projectile) {
    WindowWidth >= p.xPos >= 0 - p.rect.width
  }

  /** What `Projectile.update` does to one sprite: `x_pos` and the
      rectangle's x both move by the speed and nothing else changes, so a
      rectangle that sat at the position still does; the sprite is then kept
      exactly while its span `[x_pos, x_pos + width]` still meets the
      window's, which for a synced sprite is its rectangle's span. */
  lemma ProjectileUpdate(p: Projectile)
    ensures Moved(p).xPos - p.xPos == Moved(p).rect.x - p.rect.x == p.speed
    ensures Moved(p).yPos == p.yPos && Moved(p).rect.y == p.rect.y
    ensures Moved(p).rect.width == p.rect.width && Moved(p).rect.height == p.rect.height
    ensures Moved(p).image == p.image && Moved(p).speed == p.speed
    ensures Synced(p) ==> Synced(Moved(p))
    ensures OnScreen(p) <==> p.xPos <= WindowWidth && 0 <= p.xPos + p.rect.width
    ensures Synced(p) ==> (OnScreen(p) <==> p.rect.x <= WindowWidth && 0 <= p.rect.x + p.rect.width)
  {
  }

  /** The loop over the demon group that calls `animate_sprite` on each demon
      with the one frame index and timestamp all demons share, threading the
      returned pair to the next call. With one clock reading per tick, only
      the first demon can change: its call advances when the interval has
      elapsed and sets the timestamp to `now`, so no later call is due. */
  method AnimateDemons(frames: seq<Image>, lastTime: int, frame: int, demons: seq<Projectile>, now: int)
    returns (newLastTime: int, newFrame: int, animated: seq<Projectile>)
    requires |demons| > 0 && Due(lastTime, now) ==> 1 <= |frames| && -|frames| - 1 <= frame
    ensures |animated| == |demons|
    ensures forall i :: 0 <= i < |demons| ==> animated[i] == demons[i].(image := animated[i].image)
    ensures forall i :: 1 <= i < |demons| ==> animated[i] == demons[i]
    ensures |demons| == 0 || !Due(lastTime, now) ==>
      newLastTime == lastTime && newFrame == frame && animated == demons
    ensures |demons| > 0 && Due(lastTime, now) ==>
      (newLastTime, newFrame, animated[0].image) == AnimatePair(frames, lastTime, frame, demons[0].image, now) &&
      animated[0] == demons[0].(image := animated[0].image)
  {
    newLastTime, newFrame, animated := lastTime, frame, demons;
    var i := 0;
    while i < |demons|
      invariant 0 <= i <= |demons| == |animated|
      invariant forall k :: 0 <= k < |demons| ==> animated[k] == demons[k].(image := animated[k].image)
      invariant forall k :: 1 <= k < |demons| ==> animated[k] == demons[k]
      invariant i == 0 ==> newLastTime == lastTime && newFrame == frame && animated == demons
      invariant i > 0 ==> !Due(newLastTime, now)
      invariant i > 0 && !Due(lastTime, now) ==>
        newLastTime == lastTime && newFrame == frame && animated == demons
      invariant i > 0 && Due(lastTime, now) ==>
        (newLastTime, newFrame, animated[0].image) == AnimatePair(frames, lastTime, frame, demons[0].image, now) &&
        animated[0] == demons[0].(image := animated[0].image)
    {
      var r := AnimatePair(frames, newLastTime, newFrame, animated[i].image, now);
      newLastTime, newFrame := r.0, r.1;
      animated := animated[i := animated[i].(image := r.2)];
      i := i + 1;
    }
  }

  /** The state of the game: the dragon and the boss with their animation
      state, the two projectile groups, the shared demon animation state and
      whether the loop is still running. */
  class Game {
    var running: bool
    const dragonX: int
    var dragonY: int
    var dragonRect: Rect
    var dragonAnim: Anim
    const bossX: int
    var bossY: int
    var bossRect: Rect
    var bossDirection: int
    var bossLastSpawn: int
    var bossAnim: Anim
    var demons: seq<Projectile>
    var fireballs: seq<Projectile>
    const demonFrames: seq<Image>
    var demonLastTime: int
    var demonFrame: int

    /** The rectangles follow the positions, the boss patrols its band, the
        animation counters stay in range and every projectile sits at its
        position. The dragon's and the boss's animation are the loop's
        `(last_time, current_frame)` pair with the sprite's image. */
    ghost predicate Valid()
      reads this
    {
      dragonRect == Rect(dragonX, dragonY, DragonWidth, DragonHeight) &&
      bossRect == Rect(bossX, bossY, BossWidth, BossHeight) &&
      BossInv(Patrol(bossY, bossDirection)) &&
      Ready(dragonAnim) && Ready(bossAnim) &&
      1 <= |demonFrames| && 0 <= demonFrame < |demonFrames| &&
      (forall p :: p in demons ==> Synced(p)) &&
      (forall p :: p in fireballs ==> Synced(p))
    }

    /** `main`'s set-up: the three frame lists, each counter at frame 0 with
        the timestamp `now`, the dragon at the top left, the boss at the top
        right going down, no projectiles. */
    constructor (now: int)
      ensures Valid() && running
      ensures dragonX == 0 && dragonY == 0
      ensures dragonAnim.frames == SliceSheet("dragon.png", DragonWidth, DragonHeight, DragonFrameCount)
      ensures dragonAnim.index == 0 && dragonAnim.lastTime == now
      ensures bossX == WindowWidth - BossWidth && bossY == 0 && bossDirection == 1
      ensures bossAnim.frames == SliceSheet("boss.png", BossWidth, BossHeight, BossFrameCount)
      ensures bossAnim.index == 0 && bossAnim.lastTime == now && bossLastSpawn == now
      ensures demonFrames == SliceSheet("demon.png", DemonWidth, DemonHeight, DemonFrameCount)
      ensures demonFrame == 0 && demonLastTime == now
      ensures demons == [] && fireballs == []
    {
      var dragonFrames := InitAnimationFrames("dragon.png", DragonWidth, DragonHeight, DragonFrameCount);
      var bossFrames := InitAnimationFrames("boss.png", BossWidth, BossHeight, BossFrameCount);
      var demonSheet := InitAnimationFrames("demon.png", DemonWidth, DemonHeight, DemonFrameCount);
      running := true;
      dragonX, dragonY := 0, 0;
      dragonRect := Rect(0, 0, DragonWidth, DragonHeight);
      dragonAnim := Anim(dragonFrames, 0, now, dragonFrames[0]);
      bossX, bossY := WindowWidth - BossWidth, 0;
      bossRect := Rect(WindowWidth - BossWidth, 0, BossWidth, BossHeight);
      bossDirection := 1;
      bossLastSpawn := now;
      bossAnim := Anim(bossFrames, 0, now, bossFrames[0]);
      demons, fireballs := [], [];
      demonFrames, demonLastTime, demonFrame := demonSheet, now, 0;
    }

    /** `create_projectile`: the projectile built for an emitter at (x, y) is
        added to the group the dictionary names, and the other group is
        left alone. */
    method CreateProjectile(x: int, y: int, kind: Kind)
      requires Valid()
      modifies this`fireballs, this`demons
      ensures Valid()
      ensures kind.group == FireballGroup ==>
        fireballs == old(fireballs) + [Spawned(x, y, kind)] && demons == old(demons)
      ensures kind.group == DemonGroup ==>
        demons == old(demons) + [Spawned(x, y, kind)] && fireballs == old(fireballs)
    {
      var p := Spawned(x, y, kind);
      match kind.group {
        case FireballGroup => fireballs := fireballs + [p];
        case DemonGroup => demons := demons + [p];
      }
    }

    /** The SPACE key-downs of the event loop: each creates one fireball from
        the dragon's current position, before the dragon moves. */
    method HandleEvents(spaceDowns: nat)
      requires Valid()
      modifies this`fireballs, this`demons
      ensures Valid()
      ensures fireballs == old(fireballs) + Volley(dragonX, dragonY, spaceDowns)
      ensures demons == old(demons)
    {
      var k := 0;
      while k < spaceDowns
        invariant 0 <= k <= spaceDowns
        invariant Valid()
        invariant fireballs == old(fireballs) + Volley(dragonX, dragonY, k)
        invariant demons == old(demons)
      {
        assert Volley(dragonX, dragonY, k + 1) == Volley(dragonX, dragonY, k) + [Spawned(dragonX, dragonY, FireballKind)];
        CreateProjectile(dragonX, dragonY, FireballKind);
        k := k + 1;
      }
    }

    /** `Dragon.update`: W and S move the dragon and its rectangle follows. Its
        x never changes and nothing clamps its y. */
    method DragonUpdate(holdW: bool, holdS: bool)
      requires Valid()
      modifies this`dragonY, this`dragonRect
      ensures Valid()
      ensures dragonY == DragonMove(old(dragonY), holdW, holdS)
    {
      if holdW {
        dragonY := dragonY - DragonSpeed;
      }
      if holdS {
        dragonY := dragonY + DragonSpeed;
      }
      dragonRect := dragonRect.(y := dragonY);
    }

    /** `Boss.update`: the patrol move and bounce, then the spawn trial. */
    method BossUpdate(roll: int, now: int)
      requires Valid()
      modifies this`bossY, this`bossRect, this`bossDirection, this`bossLastSpawn, this`demons, this`fireballs
      ensures Valid()
      ensures Patrol(bossY, bossDirection) == BossMove(old(Patrol(bossY, bossDirection)))
      ensures SpawnGate(roll, now, old(bossLastSpawn)) ==>
        bossLastSpawn == now && demons == old(demons) + [Spawned(bossX, bossY, DemonKind())]
      ensures !SpawnGate(roll, now, old(bossLastSpawn)) ==>
        bossLastSpawn == old(bossLastSpawn) && demons == old(demons)
      ensures fireballs == old(fireballs)
    {
      BossMoveKeepsInv(Patrol(bossY, bossDirection));
      bossY := bossY + bossDirection * BossSpeed;
      bossRect := bossRect.(y := bossY);
      if bossRect.Top() <= 0 {
        bossDirection := 1;
      } else if bossRect.Bottom() >= WindowHeight {
        bossDirection := -1;
      }
      SpawnObjects(roll, now);
    }

    /** `Boss.spawn_objects`: a demon is created from the boss's position, and
        the spawn time reset, exactly when the gate opens. */
    method SpawnObjects(roll: int, now: int)
      requires Valid()
      modifies this`bossLastSpawn, this`demons, this`fireballs
      ensures Valid()
      ensures SpawnGate(roll, now, old(bossLastSpawn)) ==>
        bossLastSpawn == now && demons == old(demons) + [Spawned(bossX, bossY, DemonKind())]
      ensures !SpawnGate(roll, now, old(bossLastSpawn)) ==>
        bossLastSpawn == old(bossLastSpawn) && demons == old(demons)
      ensures fireballs == old(fireballs)
    {
      if roll <= 1 {
        if now - bossLastSpawn > 150 {
          bossLastSpawn := now;
          CreateProjectile(bossX, bossY, DemonKind());
        }
      }
    }

    /** `update` on every sprite of the demon group and of the fireball group. */
    method UpdateGroups()
      requires Valid()
      modifies this`demons, this`fireballs
      ensures Valid()
      ensures demons == Survivors(old(demons), Moved, OnScreen)
      ensures fireballs == Survivors(old(fireballs), Moved, OnScreen)
    {
      SurvivorsKeep(demons, Moved, OnScreen, Synced);
      SurvivorsKeep(fireballs, Moved, OnScreen, Synced);
      demons := UpdateGroup(demons, Moved, OnScreen);
      fireballs := UpdateGroup(fireballs, Moved, OnScreen);
    }

    /** The SPACE key-downs of the event loop, then the "update all sprites"
        step: the dragon, the boss, the demon group and the fireball group, in
        that order, so that the fireballs of this tick already move in it. */
    method UpdateSprites(spaceDowns: nat, holdW: bool, holdS: bool, roll: int, now: int)
      requires Valid()
      modifies this`dragonY, this`dragonRect, this`fireballs,
               this`bossY, this`bossRect, this`bossDirection, this`bossLastSpawn, this`demons
      ensures Valid()
      ensures dragonY == DragonMove(old(dragonY), holdW, holdS)
      ensures Patrol(bossY, bossDirection) == BossMove(old(Patrol(bossY, bossDirection)))
      ensures bossLastSpawn == if SpawnGate(roll, now, old(bossLastSpawn)) then now else old(bossLastSpawn)
      ensures fireballs == Survivors(old(fireballs) + Volley(dragonX, old(dragonY), spaceDowns), Moved, OnScreen)
      ensures demons == Survivors(old(demons) +
        (if SpawnGate(roll, now, old(bossLastSpawn)) then [Spawned(bossX, bossY, DemonKind())] else []), Moved, OnScreen)
    {
      HandleEvents(spaceDowns);
      ghost var volleyed := fireballs;
      DragonUpdate(holdW, holdS);
      BossUpdate(roll, now);
      ghost var spawned := demons;
      assert spawned == old(demons) +
        if SpawnGate(roll, now, old(bossLastSpawn)) then [Spawned(bossX, bossY, DemonKind())] else [];
      UpdateGroups();
      assert demons == Survivors(spawned, Moved, OnScreen) && fireballs == Survivors(volleyed, Moved, OnScreen);
    }

    /** `check_collisions`: the fireballs and demons the mask test reports as
        hit (given by their indices in the groups) are killed. */
    method CheckCollisions(fireballHits: set<int>, demonHits: set<int>)
      requires Valid()
      modifies this`fireballs, this`demons
      ensures Valid()
      ensures fireballs == Without(old(fireballs), fireballHits)
      ensures demons == Without(old(demons), demonHits)
    {
      WithoutKeeps(fireballs, fireballHits);
      WithoutKeeps(demons, demonHits);
      fireballs := Without(fireballs, fireballHits);
      demons := Without(demons, demonHits);
    }

    /** `animate_sprite` over the demon group with the shared pair. */
    method AnimateDemonGroup(now: int)
      requires Valid()
      modifies this`demonLastTime, this`demonFrame, this`demons
      ensures Valid()
      ensures |demons| == |old(demons)|
      ensures forall i :: 1 <= i < |demons| ==> demons[i] == old(demons)[i]
      ensures |demons| == 0 || !Due(old(demonLastTime), now) ==>
        demonLastTime == old(demonLastTime) && demonFrame == old(demonFrame) && demons == old(demons)
      ensures |demons| > 0 && Due(old(demonLastTime), now) ==>
        (demonLastTime, demonFrame, demons[0].image) ==
          AnimatePair(demonFrames, old(demonLastTime), old(demonFrame), old(demons)[0].image, now) &&
        demons[0] == old(demons)[0].(image := demons[0].image)
    {
      ghost var before := demons;
      demonLastTime, demonFrame, demons := AnimateDemons(demonFrames, demonLastTime, demonFrame, demons, now);
      forall p | p in demons ensures Synced(p) {
        var i :| 0 <= i < |demons| && demons[i] == p;
        assert before[i] in before;
      }
    }

    /** `animate_sprite` on the dragon and the boss, each with its own pair,
        then over the demon group with the shared pair. */
    method AnimateSprites(now: int)
      requires Valid()
      modifies this`dragonAnim, this`bossAnim, this`demonLastTime, this`demonFrame, this`demons
      ensures Valid()
      ensures dragonAnim == AnimateSprite(old(dragonAnim), now)
      ensures bossAnim == AnimateSprite(old(bossAnim), now)
      ensures |demons| == |old(demons)|
      ensures forall i :: 1 <= i < |demons| ==> demons[i] == old(demons)[i]
      ensures |demons| == 0 || !Due(old(demonLastTime), now) ==>
        demonLastTime == old(demonLastTime) && demonFrame == old(demonFrame) && demons == old(demons)
      ensures |demons| > 0 && Due(old(demonLastTime), now) ==>
        (demonLastTime, demonFrame, demons[0].image) ==
          AnimatePair(demonFrames, old(demonLastTime), old(demonFrame), old(demons)[0].image, now) &&
        demons[0] == old(demons)[0].(image := demons[0].image)
    {
      dragonAnim := AnimateSprite(dragonAnim, now);
      bossAnim := AnimateSprite(bossAnim, now);
      AnimateDemonGroup(now);
    }

    /** The collision step followed by the animation step; the shared demon
        pair is applied to the group the collision test has left. */
    method ResolveAndAnimate(fireballHits: set<int>, demonHits: set<int>, now: int)
      requires Valid()
      modifies this`fireballs, this`demons, this`dragonAnim, this`bossAnim, this`demonLastTime, this`demonFrame
      ensures Valid()
      ensures fireballs == Without(old(fireballs), fireballHits)
      ensures var hit := Without(old(demons), demonHits);
        |demons| == |hit| && (forall i :: 1 <= i < |hit| ==> demons[i] == hit[i]) &&
        (|hit| > 0 && Due(old(demonLastTime), now) ==>
          (demonLastTime, demonFrame, demons[0].image) ==
            AnimatePair(demonFrames, old(demonLastTime), old(demonFrame), hit[0].image, now) &&
          demons[0] == hit[0].(image := demons[0].image)) &&
        (|hit| == 0 || !Due(old(demonLastTime), now) ==>
          demonLastTime == old(demonLastTime) && demonFrame == old(demonFrame) && demons == hit)
      ensures dragonAnim == AnimateSprite(old(dragonAnim), now)
      ensures bossAnim == AnimateSprite(old(bossAnim), now)
    {
      CheckCollisions(fireballHits, demonHits);
      AnimateSprites(now);
    }

    /** One iteration of `main`'s loop apart from the QUIT test: the SPACE
        key-downs of the event loop, the sprite updates, the collisions and
        the animation. */
    method Step(spaceDowns: nat, holdW: bool, holdS: bool, roll: int, now: int,
                fireballHits: set<int>, demonHits: set<int>)
      requires Valid()
      modifies this`dragonY, this`dragonRect, this`fireballs, this`bossY, this`bossRect, this`bossDirection,
               this`bossLastSpawn, this`demons, this`dragonAnim, this`bossAnim, this`demonLastTime, this`demonFrame
      ensures Valid()
      ensures dragonY == DragonMove(old(dragonY), holdW, holdS)
      ensures Patrol(bossY, bossDirection) == BossMove(old(Patrol(bossY, bossDirection)))
      ensures bossLastSpawn == if SpawnGate(roll, now, old(bossLastSpawn)) then now else old(bossLastSpawn)
      ensures fireballs ==
        Without(Survivors(old(fireballs) + Volley(dragonX, old(dragonY), spaceDowns), Moved, OnScreen), fireballHits)
      ensures var spawned := if SpawnGate(roll, now, old(bossLastSpawn)) then [Spawned(bossX, bossY, DemonKind())] else [];
        var hit := Without(Survivors(old(demons) + spawned, Moved, OnScreen), demonHits);
        |demons| == |hit| && (forall i :: 1 <= i < |hit| ==> demons[i] == hit[i]) &&
        (|hit| > 0 && Due(old(demonLastTime), now) ==>
          (demonLastTime, demonFrame, demons[0].image) ==
            AnimatePair(demonFrames, old(demonLastTime), old(demonFrame), hit[0].image, now) &&
          demons[0] == hit[0].(image := demons[0].image)) &&
        (|hit| == 0 || !Due(old(demonLastTime), now) ==>
          demonLastTime == old(demonLastTime) && demonFrame == old(demonFrame) && demons == hit)
      ensures dragonAnim == AnimateSprite(old(dragonAnim), now)
      ensures bossAnim == AnimateSprite(old(bossAnim), now)
    {
      UpdateSprites(spaceDowns, holdW, holdS, roll, now);
      ResolveAndAnimate(fireballHits, demonHits, now);
    }

    /** One iteration of `main`'s loop: a QUIT event ends the loop after this
        tick (nothing in the iteration reads the flag, so it is set first),
        then the rest of the iteration. Drawing, the display update and the
        frame-rate cap are left out. */
    method Tick(quit: bool, spaceDowns: nat, holdW: bool, holdS: bool, roll: int, now: int,
                fireballHits: set<int>, demonHits: set<int>)
      requires Valid() && running
      requires 0 <= roll < 150
      modifies this`running, this`dragonY, this`dragonRect, this`fireballs, this`bossY, this`bossRect, this`bossDirection,
               this`bossLastSpawn, this`demons, this`dragonAnim, this`bossAnim, this`demonLastTime, this`demonFrame
      ensures Valid()
      ensures running == !quit
      ensures dragonY == DragonMove(old(dragonY), holdW, holdS)
      ensures Patrol(bossY, bossDirection) == BossMove(old(Patrol(bossY, bossDirection)))
      ensures bossLastSpawn == if SpawnGate(roll, now, old(bossLastSpawn)) then now else old(bossLastSpawn)
      ensures fireballs ==
        Without(Survivors(old(fireballs) + Volley(dragonX, old(dragonY), spaceDowns), Moved, OnScreen), fireballHits)
      ensures var spawned := if SpawnGate(roll, now, old(bossLastSpawn)) then [Spawned(bossX, bossY, DemonKind())] else [];
        var hit := Without(Survivors(old(demons) + spawned, Moved, OnScreen), demonHits);
        |demons| == |hit| && (forall i :: 1 <= i < |hit| ==> demons[i] == hit[i]) &&
        (|hit| > 0 && Due(old(demonLastTime), now) ==>
          (demonLastTime, demonFrame, demons[0].image) ==
            AnimatePair(demonFrames, old(demonLastTime), old(demonFrame), hit[0].image, now) &&
          demons[0] == hit[0].(image := demons[0].image)) &&
        (|hit| == 0 || !Due(old(demonLastTime), now) ==>
          demonLastTime == old(demonLastTime) && demonFrame == old(demonFrame) && demons == hit)
      ensures dragonAnim == AnimateSprite(old(dragonAnim), now)
      ensures bossAnim == AnimateSprite(old(bossAnim), now)
    {
      if quit {
        running := false;
      }
      Step(spaceDowns, holdW, holdS, roll, now, fireballHits, demonHits);
    }
  }
}
