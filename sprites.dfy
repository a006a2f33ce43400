/** Shared vocabulary of the game: the window and sprite dimensions, the
    speeds, pygame-style rectangles, opaque images, and the two pieces of
    Python list behaviour the model relies on. */
module Sprites {

  // Window dimensions
  const WindowWidth := 640
  const WindowHeight := 480

  // Sprite dimensions
  const DragonWidth := 135
  const DragonHeight := 150
  const BossWidth := 135
  const BossHeight := 165
  const DemonWidth := 130
  const DemonHeight := 140
  const FireballWidth := 50
  const FireballHeight := 48

  // Frames on each sprite sheet
  const DragonFrameCount := 5
  const BossFrameCount := 4
  const DemonFrameCount := 4

  // Speeds, in pixels per tick (the sign of a projectile's speed is its direction)
  const DragonSpeed := 5
  const BossSpeed := 6
  const DemonSpeed := -7
  const FireballSpeed := 7

  /** A pygame rectangle: left, top, width and height. */
  datatype Rect = Rect(x: int, y: int, width: int, height: int) {
    function Top(): int { y }
    function Bottom(): int { y + height }
  }

  /** The two rectangles share at least one pixel; used to say that two
      frames cut from a sprite sheet do not overlap. */
  predicate Overlap(a: Rect, b: Rect) {
    a.x < b.x + b.width && b.x < a.x + a.width &&
    a.y < b.y + b.height && b.y < a.y + a.height
  }

  /** Images are opaque. A frame cut from a sprite sheet is identified by the
      sheet's file and the source rectangle it was cut from; a picture loaded
      whole by its file. Pixels are not modelled. */
  datatype Image = Frame(file: string, source: Rect) | Picture(file: string)

  /** Python's `s[k]`, which counts a negative `k` from the end of the list. */
  function PyIndex<T>(s: seq<T>, k: int): (e: T)
    requires -|s| <= k < |s|
    ensures e in s
    ensures 0 <= k ==> e == s[k]
    ensures k < 0 ==> e == s[|s| + k]
  {
    if k < 0 then s[|s| + k] else s[k]
  }

  /** The sprites of group `s` left after the sprites at the indices in `gone`
      have been killed; the survivors keep their order. */
  function Without<T>(s: seq<T>, gone: set<int>): (r: seq<T>)
    ensures |r| <= |s|
  {
    if s == [] then []
    else
      var last := |s| - 1;
      Without(s[..last], gone) + (if last in gone then [] else [s[last]])
  }

  /** Every sprite left after the kills was in the group; with no hit index
      in range the group is unchanged. */
  lemma {:induction false} WithoutKeeps<T>(s: seq<T>, gone: set<int>)
    ensures forall x :: x in Without(s, gone) ==> x in s
    ensures (forall i :: 0 <= i < |s| ==> i !in gone) ==> Without(s, gone) == s
    decreases |s|
  {
    if s != [] {
      WithoutKeeps(s[..|s| - 1], gone);
      assert forall x :: x in s[..|s| - 1] ==> x in s;
      if forall i :: 0 <= i < |s| ==> i !in gone {
        assert s[..|s| - 1] + [s[|s| - 1]] == s;
      }
    }
  }

  /** The indices below `n` that a kill of `gone` spares, in increasing
      order. */
  function Kept(n: nat, gone: set<int>): seq<int>
    decreases n
  {
    if n == 0 then []
    else Kept(n - 1, gone) + (if n - 1 in gone then [] else [n - 1])
  }

  /** The hit indices below `n`. */
  function HitBelow(n: nat, gone: set<int>): set<int> {
    set i | 0 <= i < n && i in gone
  }

  /** Every spared index is below `n` and was not hit. */
  lemma {:induction false} KeptBelow(n: nat, gone: set<int>)
    ensures forall k :: 0 <= k < |Kept(n, gone)| ==> 0 <= Kept(n, gone)[k] < n && Kept(n, gone)[k] !in gone
    decreases n
  {
    if n > 0 {
      KeptBelow(n - 1, gone);
    }
  }

  /** The spared indices increase. */
  lemma {:induction false} KeptIncreasing(n: nat, gone: set<int>)
    ensures forall j, k :: 0 <= j < k < |Kept(n, gone)| ==> Kept(n, gone)[j] < Kept(n, gone)[k]
    decreases n
  {
    if n > 0 {
      KeptIncreasing(n - 1, gone);
      KeptBelow(n - 1, gone);
    }
  }

  /** Every index below `n` that was not hit is spared. */
  lemma {:induction false} KeptComplete(n: nat, gone: set<int>)
    ensures forall i :: 0 <= i < n && i !in gone ==> i in Kept(n, gone)
    decreases n
  {
    if n > 0 {
      KeptComplete(n - 1, gone);
    }
  }

  /** There are as many spared indices as `n` minus the hit ones. */
  lemma {:induction false} KeptCount(n: nat, gone: set<int>)
    ensures |Kept(n, gone)| == n - |HitBelow(n, gone)|
    decreases n
  {
    if n > 0 {
      KeptCount(n - 1, gone);
      if n - 1 in gone {
        assert HitBelow(n, gone) == HitBelow(n - 1, gone) + {n - 1};
      } else {
        assert HitBelow(n, gone) == HitBelow(n - 1, gone);
      }
    }
  }

  /** `Kept` lists exactly the spared indices: each one is below `n` and not
      hit, they increase, every spared index is listed, and there are as many
      as `n` minus the hit ones. */
  lemma KeptExactly(n: nat, gone: set<int>)
    ensures forall k :: 0 <= k < |Kept(n, gone)| ==> 0 <= Kept(n, gone)[k] < n && Kept(n, gone)[k] !in gone
    ensures forall j, k :: 0 <= j < k < |Kept(n, gone)| ==> Kept(n, gone)[j] < Kept(n, gone)[k]
    ensures forall i :: 0 <= i < n && i !in gone ==> i in Kept(n, gone)
    ensures |Kept(n, gone)| == n - |HitBelow(n, gone)|
  {
    KeptBelow(n, gone);
    KeptIncreasing(n, gone);
    KeptComplete(n, gone);
    KeptCount(n, gone);
  }

  /** The kill by index: the survivors are, in order, the sprites at the
      spared indices `Kept(|s|, gone)`. With `KeptExactly`, every sprite whose
      index is not hit survives, no sprite whose index is hit does, and the
      group shrinks by the number of hit indices in range. */
  lemma {:induction false} WithoutIsKept<T>(s: seq<T>, gone: set<int>)
    ensures |Without(s, gone)| == |Kept(|s|, gone)|
    ensures forall k :: 0 <= k < |Without(s, gone)| ==>
      0 <= Kept(|s|, gone)[k] < |s| && Without(s, gone)[k] == s[Kept(|s|, gone)[k]]
    decreases |s|
  {
    if s != [] {
      var last := |s| - 1;
      var front := s[..last];
      WithoutIsKept(front, gone);
      KeptBelow(last, gone);
      var w, wFront := Without(s, gone), Without(front, gone);
      var kept, keptFront := Kept(|s|, gone), Kept(last, gone);
      assert w == wFront + (if last in gone then [] else [s[last]]);
      assert kept == keptFront + (if last in gone then [] else [last]);
      forall k | 0 <= k < |w|
        ensures 0 <= kept[k] < |s| && w[k] == s[kept[k]]
      {
        if k < |wFront| {
          assert w[k] == wFront[k] == front[keptFront[k]];
          assert kept[k] == keptFront[k];
        }
      }
    }
  }
}
