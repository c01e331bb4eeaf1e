/** Image buffers. A frame (a numpy array of shape (h, w, ...)) is a
    two-dimensional array of pixels, rows first; a pixel's channels are one
    opaque integer. Pixels are the value of a frame at one moment: the rows
    of the buffer, all of the same width. */
module Frames {

  predicate Rectangular(p: seq<seq<int>>) {
    forall i :: 0 <= i < |p| ==> |p[i]| == |p[0]|
  }

  type Pixels = p: seq<seq<int>> | Rectangular(p) witness []

  /** The height and width of a value; an empty value is 0 x 0. */
  function Height(p: Pixels): nat { |p| }

  function Width(p: Pixels): nat { if p == [] then 0 else |p[0]| }

  /** What a frame holds now. */
  function Snapshot(f: array2<int>): (p: Pixels)
    reads f
    ensures Height(p) == f.Length0 && (f.Length0 > 0 ==> Width(p) == f.Length1)
    ensures forall i, j :: 0 <= i < f.Length0 && 0 <= j < f.Length1 ==> |p[i]| == f.Length1 && p[i][j] == f[i, j]
  {
    seq(f.Length0, i requires 0 <= i < f.Length0 reads f =>
      seq(f.Length1, j requires 0 <= j < f.Length1 reads f => f[i, j]))
  }

  /** Two frames of one shape with the same pixels hold the same value. */
  lemma SameSnapshot(a: array2<int>, b: array2<int>)
    requires a.Length0 == b.Length0 && a.Length1 == b.Length1
    requires forall i, j :: 0 <= i < a.Length0 && 0 <= j < a.Length1 ==> a[i, j] == b[i, j]
    ensures Snapshot(a) == Snapshot(b)
  {
    var p, q := Snapshot(a), Snapshot(b);
    forall i | 0 <= i < a.Length0
      ensures p[i] == q[i]
    {
      assert |p[i]| == |q[i]| == a.Length1;
    }
  }

  /** `frame.copy()`: a new buffer with the same shape and pixels. */
  method Copy(f: array2<int>) returns (c: array2<int>)
    ensures fresh(c)
    ensures c.Length0 == f.Length0 && c.Length1 == f.Length1
    ensures Snapshot(c) == Snapshot(f)
  {
    c := new int[f.Length0, f.Length1]((i, j) reads f =>
      if 0 <= i < f.Length0 && 0 <= j < f.Length1 then f[i, j] else 0);
    SameSnapshot(c, f);
  }

  /** A new buffer holding `p`. */
  method FromPixels(p: Pixels) returns (f: array2<int>)
    ensures fresh(f)
    ensures Snapshot(f) == p && f.Length0 == Height(p) && f.Length1 == Width(p)
  {
    f := new int[Height(p), Width(p)]((i, j) =>
      if 0 <= i < Height(p) && 0 <= j < Width(p) then p[i][j] else 0);
    var q := Snapshot(f);
    forall i | 0 <= i < Height(p)
      ensures q[i] == p[i]
    {
      assert |q[i]| == |p[i]| == Width(p);
    }
  }

  /** `p[y1:y2, x1:x2]` for bounds inside `p`. */
  function Region(p: Pixels, y1: nat, y2: nat, x1: nat, x2: nat): (r: Pixels)
    requires y1 <= y2 <= Height(p) && x1 <= x2 <= Width(p)
    ensures Height(r) == y2 - y1 && (y1 < y2 ==> Width(r) == x2 - x1)
    ensures forall i, j :: 0 <= i < y2 - y1 && 0 <= j < x2 - x1 ==> r[i][j] == p[y1 + i][x1 + j]
  {
    seq(y2 - y1, i requires 0 <= i < y2 - y1 => p[y1 + i][x1..x2])
  }

  /** The region of a frame, as a buffer of its own. */
  method Crop(f: array2<int>, y1: nat, y2: nat, x1: nat, x2: nat) returns (c: array2<int>)
    requires y1 < y2 <= f.Length0 && x1 <= x2 <= f.Length1
    ensures fresh(c)
    ensures Snapshot(c) == Region(Snapshot(f), y1, y2, x1, x2)
  {
    c := new int[y2 - y1, x2 - x1]((i, j) reads f =>
      if 0 <= i < y2 - y1 && 0 <= j < x2 - x1 then f[y1 + i, x1 + j] else 0);
    var q, r := Snapshot(c), Region(Snapshot(f), y1, y2, x1, x2);
    forall i | 0 <= i < y2 - y1
      ensures q[i] == r[i]
    {
      assert |q[i]| == |r[i]| == x2 - x1;
    }
  }
}
