/** The frame slicer, `init_animation_frames`: a sprite sheet laid out as one
    row of equally sized frames is cut into a list of frames, left to right.
    The code is the same in Parts 2, 6 and 7. Loading the sheet, the blit and
    the colour key are image I/O; a frame is identified by its sheet and the
    rectangle of the sheet it is cut from. */
module Frames {
  import opened Sprites

  /** The rectangle of the sheet that frame `i` is cut from. */
  function SourceRect(i: int, frameWidth: nat, frameHeight: nat): Rect {
    Rect(i * frameWidth, 0, frameWidth, frameHeight)
  }

  /** The frames of `range(frameCount)`, in order; empty when the count is not positive. */
  function SliceSheet(file: string, frameWidth: nat, frameHeight: nat, frameCount: int): seq<Image>
    decreases frameCount
  {
    if frameCount <= 0 then []
    else SliceSheet(file, frameWidth, frameHeight, frameCount - 1)
         + [Frame(file, SourceRect(frameCount - 1, frameWidth, frameHeight))]
  }

  /** `init_animation_frames`: the for loop appends one frame per index. */
  method InitAnimationFrames(file: string, frameWidth: nat, frameHeight: nat, frameCount: int)
    returns (frames: seq<Image>)
    ensures frames == SliceSheet(file, frameWidth, frameHeight, frameCount)
    ensures |frames| == if frameCount > 0 then frameCount else 0
  {
    frames := [];
    var frame := 0;
    while frame < frameCount
      invariant 0 <= frame <= if frameCount > 0 then frameCount else 0
      invariant frames == SliceSheet(file, frameWidth, frameHeight, frame)
      invariant |frames| == frame
    {
      frames := frames + [Frame(file, SourceRect(frame, frameWidth, frameHeight))];
      frame := frame + 1;
    }
  }

  /** The slicer returns exactly `frameCount` frames (none for a count below
      one), and frame `i` is cut from the source rectangle (i*w, 0, w, h). */
  lemma {:induction false} SliceSheetFrames(file: string, w: nat, h: nat, frameCount: int)
    ensures |SliceSheet(file, w, h, frameCount)| == if frameCount > 0 then frameCount else 0
    ensures forall i :: 0 <= i < |SliceSheet(file, w, h, frameCount)| ==>
              SliceSheet(file, w, h, frameCount)[i] == Frame(file, Rect(i * w, 0, w, h))
    decreases frameCount
  {
    if frameCount > 0 {
      SliceSheetFrames(file, w, h, frameCount - 1);
    }
  }

  /** The source rectangles tile the top row of the sheet left to right: for
      i < j, rectangle i ends where or before rectangle j begins (exactly
      where, for neighbours), both have the frame's size and lie on row 0,
      and two different rectangles never overlap. */
  lemma SourceRectsTile(w: nat, h: nat, i: int, j: int)
    requires 0 <= i < j
    ensures SourceRect(i, w, h).x + w <= SourceRect(j, w, h).x
    ensures j == i + 1 ==> SourceRect(i, w, h).x + w == SourceRect(j, w, h).x
    ensures w > 0 ==> SourceRect(i, w, h).x < SourceRect(j, w, h).x
    ensures SourceRect(i, w, h).y == SourceRect(j, w, h).y == 0
    ensures SourceRect(i, w, h).width == SourceRect(j, w, h).width == w
    ensures SourceRect(i, w, h).height == SourceRect(j, w, h).height == h
    ensures !Overlap(SourceRect(i, w, h), SourceRect(j, w, h))
  {
    var gap: nat := j - i - 1;
    var gapWidth: nat := gap * w;
    assert j * w == i * w + w + gapWidth;
  }
}
