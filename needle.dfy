/**
 * Needle selection from the line detector's output: the longest segment,
 * and of its two endpoints the one farther from the image centre.
 * Lengths and distances are compared squared; the square root is monotone,
 * so the choices are the same as with Euclidean norms.
 */
module Needle {

  /** One detected segment `(x1, y1, x2, y2)` in pixel coordinates. */
  datatype Segment = Segment(x1: int, y1: int, x2: int, y2: int)

  datatype Point = Point(x: int, y: int)

  /** The centre of the 500x500 frame every image is resized to: (500 // 2, 500 // 2). */
  const Centre := Point(250, 250)

  function Sq(n: int): nat
  {
    n * n
  }

  function SqLength(s: Segment): nat
  {
    Sq(s.x1 - s.x2) + Sq(s.y1 - s.y2)
  }

  function SqDist(p: Point, q: Point): nat
  {
    Sq(p.x - q.x) + Sq(p.y - q.y)
  }

  function End1(s: Segment): Point { Point(s.x1, s.y1) }

  function End2(s: Segment): Point { Point(s.x2, s.y2) }

  /**
   * The scan Python's `max(..., key=...)` performs: `best` is the first
   * maximum of `segs[..k]`, and it is replaced only by a strictly longer one.
   */
  function LongestFrom(segs: seq<Segment>, k: nat, best: nat): (i: nat)
    requires best < k <= |segs|
    requires forall j :: 0 <= j < k ==> SqLength(segs[j]) <= SqLength(segs[best])
    requires forall j :: 0 <= j < best ==> SqLength(segs[j]) < SqLength(segs[best])
    ensures i < |segs|
    ensures forall j :: 0 <= j < |segs| ==> SqLength(segs[j]) <= SqLength(segs[i])
    ensures forall j :: 0 <= j < i ==> SqLength(segs[j]) < SqLength(segs[i])
    decreases |segs| - k
  {
    if k == |segs| then best
    else if SqLength(segs[k]) > SqLength(segs[best]) then LongestFrom(segs, k + 1, k)
    else LongestFrom(segs, k + 1, best)
  }

  /**
   * Index of the chosen segment: at least as long as every detected one, and
   * strictly longer than every one before it (ties go to the first in detector order).
   */
  function Longest(segs: seq<Segment>): (i: nat)
    requires segs != []
    ensures i < |segs|
    ensures forall j :: 0 <= j < |segs| ==> SqLength(segs[j]) <= SqLength(segs[i])
    ensures forall j :: 0 <= j < i ==> SqLength(segs[j]) < SqLength(segs[i])
  {
    LongestFrom(segs, 1, 0)
  }

  /**
   * The needle tip: the endpoint at least as far from the centre as the
   * other; endpoint 1 is chosen only when strictly farther, so ties go to endpoint 2.
   */
  function Tip(s: Segment): (p: Point)
    ensures p == End1(s) || p == End2(s)
    ensures SqDist(p, Centre) >= SqDist(End1(s), Centre)
    ensures SqDist(p, Centre) >= SqDist(End2(s), Centre)
    ensures SqDist(End1(s), Centre) == SqDist(End2(s), Centre) ==> p == End2(s)
  {
    if SqDist(End1(s), Centre) > SqDist(End2(s), Centre) then End1(s) else End2(s)
  }
}
