/**
 * Screen layout: `calculate_layout` (the fixed table of rectangles on the
 * 1920x1080 output) and `update_layout` (each compositor pad, in session
 * order, gets the rectangle of its index).
 */
module Layout {
  import opened OrderedMaps

  /** An opaque engine object (playbin, compositor pad, GLib timer source). */
  type Handle = nat

  /** `(x, y, width, height)` in output pixels. */
  datatype Rect = Rect(x: int, y: int, w: int, h: int)

  const Width: int := 1920
  const Height: int := 1080

  predicate Inside(r: Rect) {
    0 <= r.x && 0 < r.w && r.x + r.w <= Width && 0 <= r.y && 0 < r.h && r.y + r.h <= Height
  }

  predicate Disjoint(a: Rect, b: Rect) {
    a.x + a.w <= b.x || b.x + b.w <= a.x || a.y + a.h <= b.y || b.y + b.h <= a.y
  }

  predicate Covers(r: Rect, px: int, py: int) {
    r.x <= px < r.x + r.w && r.y <= py < r.y + r.h
  }

  /** One to four videos get rectangles inside the output that do not overlap; any other count gets none. */
  function CalculateLayout(n: int): (r: seq<Rect>)
    ensures |r| == (if 1 <= n <= 4 then n else 0)
    ensures forall i | 0 <= i < |r| :: Inside(r[i])
    ensures forall i, j | 0 <= i < j < |r| :: Disjoint(r[i], r[j])
  {
    var halfWidth := Width / 2;
    var halfHeight := Height / 2;
    if n == 1 then [Rect(0, 0, Width, Height)]
    else if n == 2 then [Rect(0, 0, halfWidth, Height), Rect(halfWidth, 0, halfWidth, Height)]
    else if n == 3 then
      [Rect(0, 0, halfWidth, Height),
       Rect(halfWidth, 0, halfWidth, halfHeight),
       Rect(halfWidth, halfHeight, halfWidth, halfHeight)]
    else if n == 4 then
      [Rect(0, 0, halfWidth, halfHeight),
       Rect(halfWidth, 0, halfWidth, halfHeight),
       Rect(0, halfHeight, halfWidth, halfHeight),
       Rect(halfWidth, halfHeight, halfWidth, halfHeight)]
    else []
  }

  /** Together with disjointness: for 1..4 videos the rectangles tile the whole output. */
  lemma LayoutCoversOutput(n: int, px: int, py: int)
    requires 1 <= n <= 4
    requires 0 <= px < Width && 0 <= py < Height
    ensures exists i | 0 <= i < |CalculateLayout(n)| :: Covers(CalculateLayout(n)[i], px, py)
  {
    var r := CalculateLayout(n);
    var left, top := px < Width / 2, py < Height / 2;
    var i :=
      if n == 1 then 0
      else if n == 2 then (if left then 0 else 1)
      else if n == 3 then (if left then 0 else if top then 1 else 2)
      else (if top then (if left then 0 else 1) else (if left then 2 else 3));
    assert Covers(r[i], px, py);
  }

  function Min(a: int, b: int): int { if a <= b then a else b }

  /** The geometry after the first `k` pads were given the first `k` rectangles. */
  function Place(g: map<Handle, Rect>, pads: seq<Handle>, rects: seq<Rect>, k: nat): map<Handle, Rect>
    requires k <= |pads| && k <= |rects|
  {
    if k == 0 then g else Place(g, pads, rects, k - 1)[pads[k - 1] := rects[k - 1]]
  }

  /** What `update_layout` leaves behind: pads beyond the table keep their old geometry. */
  function LaidOut(g: map<Handle, Rect>, pads: seq<Handle>): map<Handle, Rect> {
    var rects := CalculateLayout(|pads|);
    Place(g, pads, rects, Min(|pads|, |rects|))
  }

  /** Every pad that has a slot shows the rectangle of its index. */
  predicate Shown(g: map<Handle, Rect>, pads: seq<Handle>) {
    var rects := CalculateLayout(|pads|);
    forall i | 0 <= i < |pads| && i < |rects| :: pads[i] in g && g[pads[i]] == rects[i]
  }

  lemma {:induction false} PlaceAt(g: map<Handle, Rect>, pads: seq<Handle>, rects: seq<Rect>, k: nat)
    requires Distinct(pads) && k <= |pads| && k <= |rects|
    ensures forall i | 0 <= i < k :: pads[i] in Place(g, pads, rects, k) && Place(g, pads, rects, k)[pads[i]] == rects[i]
    ensures forall p | p !in pads[..k] :: (p in Place(g, pads, rects, k) <==> p in g)
    ensures forall p | p !in pads[..k] && p in g :: Place(g, pads, rects, k)[p] == g[p]
  {
    if k > 0 {
      PlaceAt(g, pads, rects, k - 1);
      assert pads[..k] == pads[..k - 1] + [pads[k - 1]];
      assert forall i | 0 <= i < k - 1 :: pads[i] != pads[k - 1];
    }
  }

  /** After `update_layout` the i-th pad shows the i-th rectangle, and pads not in the registry are untouched. */
  lemma LaidOutShown(g: map<Handle, Rect>, pads: seq<Handle>)
    requires Distinct(pads)
    ensures Shown(LaidOut(g, pads), pads)
    ensures forall p | p !in pads && p in g :: p in LaidOut(g, pads) && LaidOut(g, pads)[p] == g[p]
  {
    var rects := CalculateLayout(|pads|);
    PlaceAt(g, pads, rects, Min(|pads|, |rects|));
  }

  /** With more videos than the table has layouts for, no pad is repositioned. */
  lemma LaidOutBeyondTable(g: map<Handle, Rect>, pads: seq<Handle>)
    requires |pads| > 4
    ensures LaidOut(g, pads) == g
  {
  }

  /** The compositor's record of each pad's position and size. */
  class Compositor {
    var geometry: map<Handle, Rect>

    constructor ()
      ensures geometry == map[]
    {
      geometry := map[];
    }

    /** `update_layout` over the pads of the active sessions, oldest first. */
    method UpdateLayout(pads: seq<Handle>)
      modifies this
      ensures geometry == LaidOut(old(geometry), pads)
    {
      var numVideos := |pads|;
      if numVideos == 0 {
        return;
      }
      var layout := CalculateLayout(numVideos);
      var idx := 0;
      while idx < numVideos
        invariant idx <= numVideos && idx <= |layout|
        invariant geometry == Place(old(geometry), pads, layout, idx)
      {
        if idx >= |layout| {
          break;
        }
        geometry := geometry[pads[idx] := layout[idx]];
        idx := idx + 1;
      }
    }
  }
}
