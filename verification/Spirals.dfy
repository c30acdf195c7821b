/** `Spiral2d` of common/src/spiral.rs. */
module Spirals {
  import opened Arith
  import opened Vectors

  function Max(a: int, b: int): int {
    if a < b then b else a
  }

  function Min(a: int, b: int): int {
    if a < b then a else b
  }

  /** The square ring a point lies on. */
  function Ring(p: Vec2): nat {
    Max(Abs(p.x), Abs(p.y))
  }

  predicate InSquare(p: Vec2, r: nat) {
    0 - r <= p.x <= r && 0 - r <= p.y <= r
  }

  function LayerSize(layer: nat): nat {
    Max(layer * 8 + 4 * Min(layer, 1) - 4, 1)
  }

  /** How many points lie on the rings inside ring `layer`. */
  function Inside(layer: nat): nat {
    if layer == 0 then 0 else (2 * layer - 1) * (2 * layer - 1)
  }

  lemma InsideStep(layer: nat)
    ensures Inside(layer + 1) == Inside(layer) + LayerSize(layer)
  {
  }

  lemma {:induction false} InsideGrows(a: nat, b: nat)
    requires a < b
    ensures Inside(a) + LayerSize(a) <= Inside(b)
  {
    InsideStep(b - 1);
    if a < b - 1 {
      InsideGrows(a, b - 1);
    }
  }

  // ----- the place of a point in the spiral

  /** Counter-clockwise from the lower left corner of its ring. */
  function Along(p: Vec2): nat {
    var l: int := Ring(p);
    if p.y == -l && p.x < l then p.x + l
    else if p.x == l && p.y < l then 2 * l + p.y + l
    else if p.y == l && p.x > -l then 4 * l + l - p.x
    else 6 * l + l - p.y
  }

  function Place(p: Vec2): nat {
    Inside(Ring(p)) + if Ring(p) == 0 then 0 else Along(p)
  }

  lemma AlongIsShort(p: Vec2)
    ensures Ring(p) > 0 ==> Along(p) < LayerSize(Ring(p))
  {
  }

  /** No two points have the same place. */
  lemma {:induction false} PlaceInjective(p: Vec2, q: Vec2)
    requires Place(p) == Place(q)
    ensures p == q
  {
    AlongIsShort(p);
    AlongIsShort(q);
    if Ring(p) < Ring(q) {
      InsideGrows(Ring(p), Ring(q));
      assert false;
    }
    if Ring(q) < Ring(p) {
      InsideGrows(Ring(q), Ring(p));
      assert false;
    }
  }

  /** The square of radius `r` is what comes first. */
  lemma {:induction false} SquareComesFirst(p: Vec2, r: nat)
    ensures Place(p) < (2 * r + 1) * (2 * r + 1) <==> InSquare(p, r)
  {
    AlongIsShort(p);
    assert Inside(r + 1) == (2 * r + 1) * (2 * r + 1);
    if Ring(p) <= r {
      InsideGrows(Ring(p), r + 1);
    } else if Ring(p) > r + 1 {
      InsideGrows(r + 1, Ring(p));
    }
  }

  /** A ring begins at its lower left corner. */
  lemma RingStarts(r: nat)
    requires r > 0
    ensures Place(Vec2(0 - r, 0 - r)) == (2 * r - 1) * (2 * r - 1)
  {
  }

  /** Along a ring every point is beside the one before, and to its left as seen from the middle. */
  lemma RingTurnsLeft(p: Vec2, q: Vec2)
    requires Ring(p) == Ring(q) && Place(q) == Place(p) + 1
    ensures Abs(q.x - p.x) + Abs(q.y - p.y) == 1
    ensures p.x * q.y - p.y * q.x == Ring(p) > 0
  {
    NextAlong(p, q);
    hide Ring, Along, Place;
    StepCross(p, q);
  }

  lemma NextAlong(p: Vec2, q: Vec2)
    requires Ring(p) == Ring(q) && Place(q) == Place(p) + 1
    ensures Ring(p) > 0
    ensures var l, dx, dy := Ring(p), q.x - p.x, q.y - p.y;
      || (p.y == -(l as int) && dx == 1 && dy == 0)
      || (p.x == l && dx == 0 && dy == 1)
      || (p.y == l && dx == -1 && dy == 0)
      || (p.x == -(l as int) && dx == 0 && dy == -1)
  {
    hide Inside;
  }

  lemma StepCross(p: Vec2, q: Vec2)
    ensures q.x == p.x + 1 && q.y == p.y ==> p.x * q.y - p.y * q.x == -p.y
    ensures q.x == p.x - 1 && q.y == p.y ==> p.x * q.y - p.y * q.x == p.y
    ensures q.x == p.x && q.y == p.y + 1 ==> p.x * q.y - p.y * q.x == p.x
    ensures q.x == p.x && q.y == p.y - 1 ==> p.x * q.y - p.y * q.x == -p.x
  {
    Expand(p.x, p.y, q.y - p.y);
    Expand(p.y, p.x, q.x - p.x);
  }

  lemma Expand(x: int, y: int, d: int)
    ensures d == 1 ==> x * (y + d) == x * y + x
    ensures d == -1 ==> x * (y + d) == x * y - x
  {
  }

  /** The arithmetic of `next` at step `i` of ring `layer`. */
  function Pos(layer: nat, i: nat): Vec2 {
    var quarter, l: int := LayerSize(layer) / 4, layer;
    Vec2(
      -l + Min(Max(i - quarter * 0, 0), l * 2) - Min(Max(i - quarter * 2, 0), l * 2),
      -l + Min(Max(i - quarter * 1, 0), l * 2) - Min(Max(i - quarter * 3, 0), l * 2))
  }

  lemma PosPlace(layer: nat, i: nat)
    requires i < LayerSize(layer)
    ensures Place(Pos(layer, i)) == Inside(layer) + i
  {
    if layer > 0 {
      assert LayerSize(layer) / 4 == 2 * layer;
      var p, l: int := Pos(layer, i), layer;
      assert p ==
        if i < 2 * l then Vec2(i - l, -l)
        else if i < 4 * l then Vec2(l, i - 3 * l)
        else if i < 6 * l then Vec2(5 * l - i, l)
        else Vec2(-l, 7 * l - i);
      assert Ring(p) == layer;
      assert Along(p) == i;
    }
  }

  function Magnitude2(p: Vec2): int {
    p.x * p.x + p.y * p.y
  }

  lemma SquareBelow(a: int, b: nat)
    requires a * a < b * b
    ensures Abs(a) < b
  {
    if Abs(a) >= b {
      SquareGrows(b, Abs(a));
    }
  }

  lemma SquareGrows(a: nat, b: nat)
    requires a <= b
    ensures a * a <= b * b
  {
  }

  predicate InCircle(p: Vec2, radius: int) {
    Magnitude2(p) < (radius + 1) * (radius + 1)
  }

  /** What lies in the circle lies in the square that `radius` takes. */
  lemma CircleInSquare(p: Vec2, r: int)
    requires InCircle(p, r)
    ensures Place(p) < Square(2 * r + 1)
  {
    var b: nat := Abs(r + 1);
    assert b * b == (r + 1) * (r + 1);
    assert p.x * p.x >= 0 && p.y * p.y >= 0;
    SquareBelow(p.x, b);
    SquareBelow(p.y, b);
    assert b > 0;
    var side: nat := if r >= 0 then r else -r - 1;
    assert (2 * side + 1) * (2 * side + 1) == (2 * r + 1) * (2 * r + 1);
    SquareComesFirst(p, side);
  }

  class Spiral2d {
    var layer: nat
    var i: nat

    ghost predicate Valid()
      reads this
    {
      i <= LayerSize(layer)
    }

    /** How many points have been returned. */
    ghost function Count(): nat
      reads this
    {
      Inside(layer) + i
    }

    constructor ()
      ensures Valid() && Count() == 0
    {
      layer, i := 0, 0;
    }

    /** `next`: the points in the order of their places, none skipped. */
    method Next() returns (pos: Vec2)
      requires Valid()
      modifies this
      ensures Valid() && Count() == old(Count()) + 1
      ensures Place(pos) == old(Count())
    {
      if i >= LayerSize(layer) {
        InsideStep(layer);
        layer := layer + 1;
        i := 0;
      }
      var layerSize, l: int := LayerSize(layer), layer;
      pos := Vec2(
        -l + Min(Max(i - (layerSize / 4) * 0, 0), l * 2) - Min(Max(i - (layerSize / 4) * 2, 0), l * 2),
        -l + Min(Max(i - (layerSize / 4) * 1, 0), l * 2) - Min(Max(i - (layerSize / 4) * 3, 0), l * 2));
      PosPlace(layer, i);
      assert pos == Pos(layer, i);
      hide Place;
      i := i + 1;
    }

    /** The points of the next `n` places, each once. */
    method Take(n: nat) returns (out: seq<Vec2>)
      requires Valid()
      modifies this
      ensures Valid() && Count() == old(Count()) + n
      ensures |out| == n && forall k :: 0 <= k < n ==> Place(out[k]) == old(Count()) + k
    {
      out := [];
      for k := 0 to n
        invariant Valid() && Count() == old(Count()) + k
        invariant |out| == k && forall j :: 0 <= j < k ==> Place(out[j]) == old(Count()) + j
      {
        var pos := Next();
        out := out + [pos];
      }
    }

    /** `radius`, on a spiral that may already have been advanced. */
    method Radius(radius: int) returns (out: seq<Vec2>)
      requires Valid()
      modifies this
      ensures forall i, j :: 0 <= i < j < |out| ==> Place(out[i]) < Place(out[j])
      ensures old(Count()) == 0 ==> forall p :: p in out <==> InCircle(p, radius)
    {
      ghost var first := Count();
      var n := Square(radius * 2 + 1);
      var taken := Take(n);
      out := InCircleOf(taken, radius, first);
      if first == 0 {
        CircleTaken(taken, radius);
      }
    }
  }

  function Square(a: int): (s: nat)
    ensures s == a * a
  {
    assert a * a == Abs(a) * Abs(a);
    a * a
  }

  /** The filter of `radius`. */
  method InCircleOf(taken: seq<Vec2>, radius: int, ghost first: nat) returns (out: seq<Vec2>)
    requires forall k :: 0 <= k < |taken| ==> Place(taken[k]) == first + k
    ensures forall i, j :: 0 <= i < j < |out| ==> Place(out[i]) < Place(out[j])
    ensures forall p :: p in out <==> p in taken && InCircle(p, radius)
  {
    hide Place, InCircle;
    out := [];
    for k := 0 to |taken|
      invariant forall i :: 0 <= i < |out| ==> Place(out[i]) < first + k
      invariant forall i, j :: 0 <= i < j < |out| ==> Place(out[i]) < Place(out[j])
      invariant forall p :: p in out <==> p in taken[..k] && InCircle(p, radius)
    {
      var pos := taken[k];
      if InCircle(pos, radius) {
        out := out + [pos];
      }
    }
    assert taken[..|taken|] == taken;
  }

  lemma CircleTaken(taken: seq<Vec2>, radius: int)
    requires |taken| == Square(radius * 2 + 1)
    requires forall k :: 0 <= k < |taken| ==> Place(taken[k]) == k
    ensures forall p :: InCircle(p, radius) ==> p in taken
  {
    forall p | InCircle(p, radius)
      ensures p in taken
    {
      CircleInSquare(p, radius);
      PlaceInjective(p, taken[Place(p)]);
    }
  }

  /** The first (2r+1)^2 points of a spiral are the square of radius `r`, each once. */
  method FirstSquare(r: nat) returns (out: seq<Vec2>)
    ensures |out| == (2 * r + 1) * (2 * r + 1)
    ensures forall i, j :: 0 <= i < j < |out| ==> out[i] != out[j]
    ensures forall p: Vec2 :: p in out <==> InSquare(p, r)
  {
    var spiral := new Spiral2d();
    out := spiral.Take((2 * r + 1) * (2 * r + 1));
    forall p: Vec2
      ensures p in out <==> InSquare(p, r)
    {
      SquareComesFirst(p, r);
      if Place(p) < |out| {
        PlaceInjective(p, out[Place(p)]);
      }
    }
  }
}
