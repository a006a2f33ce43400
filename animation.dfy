/** The animator, `animate_sprite`: a frame counter that advances when the
    animation interval has elapsed since the last advance and wraps to the
    first frame after the last one.

    Part 7 keeps a sprite's state on the sprite object (`frame_list`,
    `current_frame_index`, `last_time_frame_updated`, `image`). Parts 2 and 6
    keep `(last_time, current_frame)` in local variables of the game loop,
    pass them in with the frame list and get them back, and only `obj.image`
    lives on the sprite. Either way the same four values are read and
    written, so both are modelled by one record and one function. */
module Animation {
  import opened Sprites

  /** Milliseconds between two frame advances. */
  const AnimationInterval := 200

  /** The animation state of one sprite: its frames, the index of the
      current frame, the clock value of the last advance and the image on
      show. */
  datatype Anim = Anim(frames: seq<Image>, index: int, lastTime: int, image: Image)

  /** The invariant the game keeps for every animated sprite: at least one
      frame, the index in range and the image on show the indexed frame. */
  predicate Ready(a: Anim) {
    1 <= |a.frames| && 0 <= a.index < |a.frames| && a.image == a.frames[a.index]
  }

  /** The animation interval has elapsed (the source compares with `>=`). */
  predicate Due(lastTime: int, now: int) {
    now - lastTime >= AnimationInterval
  }

  /** One call of `animate_sprite` at clock value `now`. When due, the index
      is incremented and reset to 0 once it reaches the number of frames, the
      timestamp becomes `now` and the image the new frame (Python indexing,
      which counts a negative index from the end); otherwise nothing changes.
      Indexing an empty frame list on an advance is the source's crash, hence
      the precondition. */
  function AnimateSprite(a: Anim, now: int): (r: Anim)
    requires Due(a.lastTime, now) ==> 1 <= |a.frames| && -|a.frames| - 1 <= a.index
    ensures r.frames == a.frames
    ensures !Due(a.lastTime, now) ==> r == a
    ensures Due(a.lastTime, now) && 0 <= a.index < |a.frames| ==>
      r.index == (a.index + 1) % |a.frames| && r.lastTime == now && r.image == a.frames[r.index]
    ensures Ready(a) ==> Ready(r)
  {
    if Due(a.lastTime, now) then
      var index := if a.index + 1 >= |a.frames| then 0 else a.index + 1;
      a.(index := index, lastTime := now, image := PyIndex(a.frames, index))
    else
      a
  }

  /** The value-returning form of Parts 2 and 6: `animate_sprite(frame_list,
      last_time, current_frame, obj)` returns the pair `(last_time,
      current_frame)` and may write `obj.image`; the result is that pair
      followed by the sprite's image after the call. Before the interval the
      inputs come back unchanged; on an advance the pair is the clock value
      and the next index, wrapping to 0, and the image is the frame at that
      index. */
  function AnimatePair(frameList: seq<Image>, lastTime: int, currentFrame: int, image: Image, now: int)
    : (r: (int, int, Image))
    requires Due(lastTime, now) ==> 1 <= |frameList| && -|frameList| - 1 <= currentFrame
    ensures !Due(lastTime, now) ==> r == (lastTime, currentFrame, image)
    ensures Due(lastTime, now) && 0 <= currentFrame < |frameList| ==>
      r.0 == now && r.1 == (currentFrame + 1) % |frameList| && r.2 == frameList[r.1]
    ensures 0 <= currentFrame < |frameList| ==> 0 <= r.1 < |frameList|
  {
    var a := AnimateSprite(Anim(frameList, currentFrame, lastTime, image), now);
    (a.lastTime, a.index, a.image)
  }

  /** The state after one call of `animate_sprite` per clock reading in `times`. */
  function AnimateRun(a: Anim, times: seq<int>): (r: Anim)
    requires Ready(a)
    ensures Ready(r) && r.frames == a.frames
    decreases |times|
  {
    if times == [] then a else AnimateRun(AnimateSprite(a, times[0]), times[1..])
  }

  /** Each clock reading in `times` is at least one interval after the one
      before it (the first: after `lastTime`). */
  predicate Spaced(lastTime: int, times: seq<int>) {
    (|times| > 0 ==> Due(lastTime, times[0])) &&
    forall i :: 0 < i < |times| ==> Due(times[i - 1], times[i])
  }

  /** With readings spaced at least one interval apart, every call advances
      one frame: starting at index i, k readings (with i + k at most the
      number of frames) leave the index at i + k, or at 0 once i + k reaches
      the number of frames; the timestamp is the last reading. */
  lemma {:induction false} SpacedRunAdvancesEach(a: Anim, times: seq<int>)
    requires Ready(a) && Spaced(a.lastTime, times)
    requires a.index + |times| <= |a.frames|
    ensures AnimateRun(a, times).index ==
              if a.index + |times| == |a.frames| then 0 else a.index + |times|
    ensures |times| > 0 ==> AnimateRun(a, times).lastTime == times[|times| - 1]
    decreases |times|
  {
    if times != [] {
      var b := AnimateSprite(a, times[0]);
      var rest := times[1..];
      assert Spaced(b.lastTime, rest) by {
        forall i | 0 < i < |rest| ensures Due(rest[i - 1], rest[i]) {
          assert rest[i - 1] == times[i] && rest[i] == times[i + 1];
        }
      }
      if rest != [] {
        SpacedRunAdvancesEach(b, rest);
        assert rest[|rest| - 1] == times[|times| - 1];
      }
    }
  }

  /** From a fresh start at the first frame, exactly as many advances as
      there are frames bring the index back to 0, and fewer advances do not. */
  lemma FullCycleReturnsToStart(a: Anim, times: seq<int>)
    requires Ready(a) && a.index == 0 && Spaced(a.lastTime, times)
    requires |times| <= |a.frames|
    ensures AnimateRun(a, times).index == 0 <==> (|times| == 0 || |times| == |a.frames|)
    ensures |times| == |a.frames| ==> AnimateRun(a, times).image == a.frames[0]
  {
    SpacedRunAdvancesEach(a, times);
  }
}
