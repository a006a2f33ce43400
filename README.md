# EvilClutches game loop, modelled in Dafny

EvilClutches is a small pygame game in several parts.
- A dragon at the left edge moves up and down with W and S, and breathes a fireball on every SPACE key-down.
- A boss at the right edge patrols up and down between the window's top and bottom. Now and then it spawns a demon that flies left.
- Fireballs fly right. Fireballs and demons that leave the window are killed, and fireballs and demons that collide are both killed. Nothing keeps the dragon inside the window, and the boss's bottom edge dips 3 pixels below it at the lowest point of its patrol.
- The dragon, the boss and every demon flip through the frames of their sprite sheets, one frame per 200 ms. A fireball shows one static picture.

This project models the integer state machine inside the game loop and proves properties of it. Drawing, images and the pygame library are not modelled.

Files and modules:
- `sprites.dfy` (`Sprites`): the window and sprite constants, pygame-style rectangles and opaque images. It also has Python's negative list indexing and the removal of the sprites a collision kills.
- `frames.dfy` (`Frames`): `init_animation_frames`, the slicer that cuts a one-row sprite sheet into frames. A frame is identified by its sheet and the rectangle it is cut from.
- `animation.dfy` (`Animation`): `animate_sprite`, a timed frame counter that wraps to 0. It comes in two forms:
  - the form that writes the sprite's own fields (Part 7);
  - the value-returning form that returns `(last_time, current_frame)` (Parts 2 and 6).
- `motion.dfy` (`Motion`): the dragon's step, the boss's reflecting patrol and its invariant, and the demon spawn gate. These are the same in Parts 6 and 7.
- `groups.dfy` (`Groups`): pygame's `Group.update` on a projectile group, with each sprite's `update` that moves it and kills it once it is off screen. The move and the lifetime test are parameters, since Parts 6 and 7 differ in them while the group update is the same.
- `part7.dfy` (`Part7`): the reference game as a `Game` class, with one method per source method and `Tick` for one loop iteration.
  - Every sprite carries its own animation state.
  - Fireballs and demons get their offsets from their own constructors.
- `part6.dfy` (`Part6`): the earlier version of the same game.
  - Projectiles are made by the dictionary-driven `create_projectile`. It puts the fireball 1 pixel below the position the dragon fires from; Part 7 puts it 5 pixels below.
  - The animation state lives in the loop's local variables. All demons share one `(last_time, current_frame)` pair. So with one clock reading per tick, only the first demon of the group can change image in a tick.
- `part2.dfy` (`Part2`): the slicer and the value-returning animator driving a single dragon.

Every outside input of an iteration is a parameter of `Tick`:
- the QUIT flag;
- the held W and S keys;
- the number of SPACE key-downs;
- the value of `randrange(150)`;
- the clock value `now`;
- the indices of the fireballs and the demons that the mask collision test reports as hit.

## Model

| member | source | states |
|---|---|---|
| Sprites.PyIndex | EvilCLutches-Part-7.py:199 | Python's `s[k]`: for `-len <= k < len` the element is in the list, and it is `s[k]` for non-negative `k` and `s[len+k]` for negative `k` |
| Sprites.Without | EvilCLutches-Part-7.py:207 | killing the sprites at the hit indices never makes a group longer |
| Sprites.WithoutKeeps | EvilCLutches-Part-7.py:207 | every sprite left after the kills was in the group; with no hit index in range the group is unchanged |
| Sprites.KeptExactly | EvilCLutches-Part-7.py:207 | the spared indices of a group of `n` are exactly the indices below `n` that were not hit, in increasing order, and there are `n` minus the number of hit indices below `n` of them |
| Sprites.WithoutIsKept | EvilCLutches-Part-7.py:207 | by index: the survivors are, in order, the sprites at the spared indices `Kept`, one per spared index. With `KeptExactly`, every sprite whose index was not hit survives, none whose index was hit does, and the group shrinks by the number of hit indices in range (same in Part 6, lines 199-205) |
| Frames.InitAnimationFrames | EvilCLutches-Part-2.py:38-58 | the for loop builds exactly the frame list of `SliceSheet`, which has `frame_count` frames, or none for a count below one (same code in Parts 6 and 7) |
| Frames.SliceSheetFrames | EvilCLutches-Part-2.py:49-58 | the slicer returns `max(frame_count, 0)` frames, and frame `i` is cut from the rectangle `(i*frame_width, 0, frame_width, frame_height)` of the sheet |
| Frames.SourceRectsTile | EvilCLutches-Part-2.py:51-56 | for `i < j`, rectangle `i` ends at or before rectangle `j` begins, exactly where `j` begins for neighbours. Both are on row 0 with the frame's size, they run left to right, and they never overlap |
| Animation.AnimateSprite | EvilCLutches-Part-7.py:186-199 | before 200 ms nothing changes. When `now - last >= 200`, the index becomes `(index+1) mod len`, the timestamp `now` and the image `frame_list[index]`. The frame list is untouched, and the index stays in `[0, len)` with the image the indexed frame |
| Animation.AnimatePair | EvilCLutches-Part-2.py:61-79 | the value-returning form: before 200 ms it returns `(last_time, current_frame)` and the image unchanged. On an advance it returns `(now, (current_frame+1) mod len)` and the image `frame_list` at the returned index, in range whenever the input index was (same code in Part 6, lines 158-176) |
| Animation.AnimateRun | EvilCLutches-Part-7.py:193-199 | any sequence of animator calls keeps the frame list, the index range and the image on show |
| Animation.SpacedRunAdvancesEach | EvilCLutches-Part-2.py:71-75 | with clock readings at least 200 ms apart, starting at index `i`, `k` calls (with `i+k <= len`) leave the index at `i+k`, or at 0 once `i+k` reaches `len`; the timestamp is the last reading |
| Animation.FullCycleReturnsToStart | EvilCLutches-Part-2.py:71-87 | from the start at index 0, `len(frame_list)` spaced advances bring the index back to 0 and frame 0 back on show, and no smaller non-zero number does |
| Motion.DragonMove | EvilCLutches-Part-7.py:69-73 | W subtracts 5 from y and S adds 5, so both held cancel out; there is no clamping |
| Motion.BossMove | EvilCLutches-Part-7.py:100-108 | y moves by `direction*6`. Then the direction becomes 1 if the top is at or above 0, else -1 if the bottom `y+165` is at or below 480, else it stays; the top check comes first |
| Motion.BossMoveKeepsInv | EvilCLutches-Part-7.py:100-108 | a move keeps the boss's y a multiple of 6 in `[0, 318]`, its direction 1 or -1, and turned back at either end |
| Motion.BossStaysInBand | EvilCLutches-Part-7.py:89-108 | from the start at y = 0 going down, every tick leaves y a multiple of 6 in `[0, 318]` and the direction in `{1, -1}` |
| Motion.BossFirstDescent | EvilCLutches-Part-7.py:100-108 | the boss moves down 6 pixels a tick for 53 ticks and turns at y = 318, with its bottom 3 pixels below the window |
| Motion.SpawnGateOdds | EvilCLutches-Part-7.py:117-120 | of the 150 rolls of `randrange(150)`, exactly two (0 and 1) open the spawn gate once strictly more than 150 ms have passed since the last spawn, and none before (Part 6, lines 106-109, writes the cooldown as the literal 150) |
| Motion.SpawnTimesCooledDown | EvilCLutches-Part-7.py:117-122 | over any run of spawn trials there is at most one spawn per trial, and each spawn comes strictly more than 150 ms after the previous one |
| Part7.FireballSpawn | EvilCLutches-Part-7.py:144-149 | a fireball from a dragon at `(x, y)` has the rectangle `(x+92, y+5, 50, 48)`, speed 7 and the fireball picture; the float offsets evaluate to 92 and 5 |
| Part7.DemonSpawn | EvilCLutches-Part-7.py:152-160 | a demon from a boss at `(x, y)` has the rectangle `(x+2, y+12, 130, 140)` and speed -7. It gets its own four demon frames, at frame 0 with the timestamp `now` |
| Part7.ProjectileUpdate | EvilCLutches-Part-7.py:138-141 | `Moved`, the move, shifts the rectangle horizontally by the speed and changes nothing else, so a demon keeps its animation invariant. `OnScreen`, the lifetime test, keeps a projectile exactly while its closed horizontal span `[x, x+width]` still meets the window's `[0, 640]` |
| Part6.ProjectileUpdate | EvilCLutches-Part-6.py:128-132 | `Moved`, the move, shifts `x_pos` and `rect.x` both by the speed and changes nothing else, so a rectangle that sat at its position still does. `OnScreen`, the lifetime test, keeps a projectile exactly while its span `[x_pos, x_pos+width]` still meets `[0, 640]`; for a synced projectile that is its rectangle's span |
| Groups.Survivors | EvilCLutches-Part-7.py:133-141 | `Group.update` on a projectile group never makes it longer (Part 6's `Projectile.update`, EvilCLutches-Part-6.py:123-132, is the same with its own move and test) |
| Groups.SurvivorsAreStepped | EvilCLutches-Part-7.py:133-141 | every survivor passed the lifetime test after its move and is a sprite of the group moved once |
| Groups.SurvivorsKeep | EvilCLutches-Part-7.py:133-141 | a property every sprite has and a move keeps holds of every survivor; this keeps each game's sprite invariant across the update |
| Groups.SurvivorsAppend | EvilCLutches-Part-7.py:138-141 | updating a group is updating its parts one after the other |
| Groups.SurvivorsOneByOne | EvilCLutches-Part-7.py:138-141 | a projectile stays, moved, exactly when its moved state passes the lifetime test; the projectiles around it are unaffected |
| Groups.UpdateGroup | EvilCLutches-Part-7.py:238-239 | the loop over the group computes exactly `Survivors` of the group |
| Part7.AnimateDemon | EvilCLutches-Part-7.py:252-253 | animating a demon keeps its rectangle, its speed and its animation invariant |
| Part7.AnimateDemons | EvilCLutches-Part-7.py:252-253 | the loop animates every demon of the group on its own timestamp, and leaves the group's length and order unchanged |
| Part7.Game.constructor | EvilCLutches-Part-7.py:48-93 | the set-up puts the dragon at (0, 0) with 5 frames and the boss at (505, 0) going down with 4 frames. Both are at frame 0 with the timestamp `now`, the groups are empty, and the game invariant holds |
| Part7.Game.DragonUpdate | EvilCLutches-Part-7.py:60-78 | one fireball per SPACE key-down, from the position before the move. Then the W/S step, with the rectangle following y and x unchanged |
| Part7.Game.BossUpdate | EvilCLutches-Part-7.py:95-110 | the boss takes its patrol step with the rectangle following, then spawns from its new position; the invariant is kept |
| Part7.Game.SpawnObjects | EvilCLutches-Part-7.py:112-122 | a demon is added and the spawn time set to `now` exactly when `roll <= 1` and `now - last > 150`; otherwise both stay unchanged |
| Part7.Game.CheckCollisions | EvilCLutches-Part-7.py:202-208 | the reported fireballs and demons are removed from their groups and the invariant is kept |
| Part7.Game.AnimateSprites | EvilCLutches-Part-7.py:249-253 | the animator runs on the dragon, the boss and every demon |
| Part7.Game.UpdateGroups | EvilCLutches-Part-7.py:238-239 | both groups become their `Survivors` under Part 7's move (the rectangle advances by the speed) and test (`rect.x` in `[-width, 640]`), and the invariant is kept |
| Part7.Game.UpdateSprites | EvilCLutches-Part-7.py:235-239 | dragon, boss, demons, fireballs, in that order; a projectile created in this step already moves in it |
| Part7.Game.ResolveAndAnimate | EvilCLutches-Part-7.py:247-253 | the demons left after the collisions are the ones animated |
| Part7.Game.Tick | EvilCLutches-Part-7.py:223-253 | one iteration's full new state: the running flag, the dragon's and the boss's step, the spawn time, both groups after update and collisions, and every animation. The game invariant holds throughout |
| Part6.DemonPicture | EvilCLutches-Part-6.py:221 | `demon_dict`'s image is the frame cut from `(0, 0, 130, 140)` of the demon sheet |
| Part6.Spawned | EvilCLutches-Part-6.py:186-194 | on each axis, the position plus half the projectile's size (floor division) equals the emitter position plus half the emitter's size. The rectangle sits at the position with the dictionary's size, image and speed |
| Part6.FireballOffsets | EvilCLutches-Part-6.py:209-217 | `fireball_dict` (`FireballKind`), fed to `create_projectile`: a fireball starts at `(x+92, y+1)` from the dragon's position, with size 50 by 48 and speed 7 |
| Part6.DemonOffsets | EvilCLutches-Part-6.py:219-227 | `demon_dict` (`DemonKind`), fed to `create_projectile`: a demon starts at `(x+2, y+12)` from the boss's position, with size 130 by 140, speed -7 and demon frame 0 |
| Part6.AnimateDemons | EvilCLutches-Part-6.py:295-299 | threading the shared pair through the group loop changes at most the first demon. With an empty group or before 200 ms nothing changes; otherwise the first demon's image and the pair are `animate_sprite`'s result, and only its image changes |
| Part6.Game.constructor | EvilCLutches-Part-6.py:228-250 | the three frame lists (5, 4 and 4 frames), each counter at frame 0 with the timestamp `now`, the dragon at (0, 0), the boss at (505, 0) going down, and no projectiles |
| Part6.Game.CreateProjectile | EvilCLutches-Part-6.py:179-196 | the new projectile goes into the group its dictionary names and the other group is unchanged |
| Part6.Game.HandleEvents | EvilCLutches-Part-6.py:260-265 | each SPACE key-down calls `create_projectile` once, from the dragon's current position; the demon group is unchanged |
| Part6.Game.DragonUpdate | EvilCLutches-Part-6.py:56-70 | the W/S step, with `rect.y` following `y_pos`; x is constant |
| Part6.Game.BossUpdate | EvilCLutches-Part-6.py:84-99 | the patrol step and bounce (top check first) with `rect.y` synced, then the spawn trial from the new position |
| Part6.Game.SpawnObjects | EvilCLutches-Part-6.py:101-111 | a demon is created and the spawn time set to `now` exactly when `roll <= 1` and `now - last > 150`; otherwise both stay unchanged |
| Part6.Game.UpdateGroups | EvilCLutches-Part-6.py:273-274 | both groups become their `Survivors` under Part 6's move (`x_pos` and `rect.x` both advance by the speed) and test (`x_pos` in `[-width, 640]`); rectangles that sat at their positions still do |
| Part6.Game.UpdateSprites | EvilCLutches-Part-6.py:260-274 | the SPACE fireballs, then dragon, boss, demons and fireballs updated in that order |
| Part6.Game.CheckCollisions | EvilCLutches-Part-6.py:199-205 | the reported fireballs and demons are removed from their groups and the invariant is kept |
| Part6.Game.AnimateDemonGroup | EvilCLutches-Part-6.py:295-299 | the shared pair applied to the demon group changes at most the first demon; the game invariant is kept |
| Part6.Game.AnimateSprites | EvilCLutches-Part-6.py:284-299 | the dragon and the boss advance on their own pairs, and the demon group on the shared pair |
| Part6.Game.ResolveAndAnimate | EvilCLutches-Part-6.py:282-299 | the demons left after the collisions are the ones the shared pair animates. When no demon is left or 200 ms have not passed, the pair and the surviving group are unchanged; otherwise only the first survivor's image changes, to `animate_sprite`'s result |
| Part6.Game.Step | EvilCLutches-Part-6.py:260-299 | one iteration's full new state apart from the loop flag: the dragon's and the boss's step, the spawn time, both groups after update and collisions, the dragon's and the boss's pair, and the shared demon pair with the demons it animates, in the unchanged case too |
| Part6.Game.Tick | EvilCLutches-Part-6.py:255-299 | one iteration's full new state: the running flag and everything `Step` gives, including that only the first surviving demon can change image, and that with no survivor or before 200 ms the shared pair and the surviving demons are unchanged |
| Part2.Game.constructor | EvilCLutches-Part-2.py:82-90 | the five dragon frames, frame 0 on show and the timestamp `now` |
| Part2.Game.Tick | EvilCLutches-Part-2.py:95-114 | the QUIT flag ends the loop. The returned pair of `animate_sprite` replaces the loop's pair and its image write lands on the dragon, keeping the index in range |

## Left out

- Drawing, the window, `display.update`, `clock.tick` and the `print` on a collision are output. They change no modelled state.
- Images: loading, `Surface`, `blit`, `set_colorkey` and `transform.scale` (Part 6 scales the fireball picture to 64 by 64) are pixel work. A frame is identified by its sheet and source rectangle. So Part 6's `demon_dict` image and the first frame of the demon animation count as equal images.
- Collision masks and `groupcollide` with `collide_mask`: the per-pixel test is inside pygame. Its outcome is a `Tick` input: the indices of the fireballs and the demons that were hit. That a killed fireball really overlaps a killed demon is not modelled.
- Randomness and the clock: `randrange(150)` and `get_ticks` are `Tick` parameters; the roll is required to lie in `[0, 150)`. The source reads the clock afresh in each `animate_sprite`, in each spawn trial whose roll is at most 1, and in each Part 7 `Demon` constructor, which takes a second reading for the new demon's animation timestamp. The model uses one clock value per iteration for all of them, so `Part7.DemonSpawn` gives the new demon the same `now` as the spawn gate. That single value is also what makes only the first demon of Part 6 change per tick.
- Event polling: `event.get` and `key.get_pressed` become the QUIT flag, the held W/S keys and the number of SPACE key-downs. Key-downs other than SPACE do nothing and are not counted.
- Floating point: Part 7's fireball offsets are float expressions. They are evaluated as exact decimals, where they give 92 and 5; binary rounding cannot change either floor because neither value is near an integer. The integer truncation that `pygame.Rect` applies to a float is not modelled: for integer dragon positions the coordinates are whole numbers.
- Part 7's `Fireball` and `Demon` also keep `x_pos`/`y_pos` attributes that nothing reads after construction. They are not modelled; the rectangle is the projectile's position.
- Integer width: `pygame.Rect` keeps its coordinates in C ints. The positions the model keeps are Python ints: the dragon's, the boss's, Part 7's demons' and Part 6's projectiles'. Part 7's fireball `x_pos`/`y_pos` are floats, and the model does not keep them. The model's integers are unbounded. The dragon's y is never clamped, so holding one key long enough would take it past what a `Rect` can hold; that overflow, and whatever pygame does about it, is not modelled.
- Masks (`mask.from_surface`) are computed once and used only by the collision test.
- EvilCLutches-Part-1.py is only a window and an event loop and is not part of this model.
- Sprites.Without: its own contract gives only the length bound; which sprites survive is stated by `Sprites.WithoutIsKept` and `Sprites.KeptExactly`, by index, since two sprites of one group can be equal values. The kills do not depend on the sprites' rectangles, because the collision outcome is an input.
- Groups.Survivors: its own contract gives only the length bound; what the survivors are is stated by the `SurvivorsAreStepped`, `SurvivorsKeep` and `SurvivorsOneByOne` lemmas.
- Animation.AnimateSprite: an advance on an empty frame list is the source's crash (indexing an empty list), so it is excluded by the precondition rather than modelled.
