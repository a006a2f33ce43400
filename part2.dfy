/** The game of Part 2 (EvilCLutches-Part-2.py): a dragon that stands at the
    top left and flaps through the five frames of its sprite sheet. The loop
    keeps the frame index and the timestamp of the last advance in local
    variables and threads them through the value-returning `animate_sprite`,
    which also writes the dragon's image. */
module Part2 {
  import opened Sprites
  import opened Frames
  import opened Animation


  /** The state of `main`: the loop flag, the dragon's frame list and image,
      and the loop's `(last_time_dragon, current_frame_dragon)` pair. */
  class Game {
    var running: bool
    const frames: seq<Image>
    var image: Image
    var lastTime: int
    var currentFrame: int

    /** The index stays in range and the dragon shows the indexed frame. */
    ghost predicate Valid()
      reads this
    {
      1 <= |frames| && 0 <= currentFrame < |frames| && image == frames[currentFrame]
    }

    /** `main`'s set-up: the five dragon frames, frame 0 on show, the
        timestamp the clock value `now`. */
    constructor (now: int)
      ensures Valid() && running
      ensures frames == SliceSheet("dragon.png", DragonWidth, DragonHeight, DragonFrameCount)
      ensures |frames| == DragonFrameCount
      ensures currentFrame == 0 && lastTime == now && image == frames[0]
    {
      var sheet := InitAnimationFrames("dragon.png", DragonWidth, DragonHeight, DragonFrameCount);
      running := true;
      frames := sheet;
      image := sheet[0];
      lastTime, currentFrame := now, 0;
    }

    /** One iteration of `main`'s loop: a QUIT event ends the loop after this
        iteration, and the returned pair of `animate_sprite` replaces the
        loop's pair while its image write lands on the dragon. Drawing, the
        display update and the frame-rate cap are left out. */
    method Tick(quit: bool, now: int)
      requires Valid() && running
      modifies this`running, this`image, this`lastTime, this`currentFrame
      ensures Valid()
      ensures running == !quit
      ensures (lastTime, currentFrame, image) ==
        AnimatePair(frames, old(lastTime), old(currentFrame), old(image), now)
    {
      if quit {
        running := false;
      }
      var r := AnimatePair(frames, lastTime, currentFrame, image, now);
      lastTime, currentFrame := r.0, r.1;
      image := r.2;
    }
  }
}
