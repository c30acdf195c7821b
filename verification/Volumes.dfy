/** The default position and volume iterators of common/src/vol.rs. */
module Volumes {
  import opened Wrappers
  import opened Vectors

  // ----- the positions of a box, in order

  function Row(x: int, x1: int, y: int, z: int): seq<Vec3>
    decreases x1 - x
  {
    if x >= x1 then [] else [Vec3(x, y, z)] + Row(x + 1, x1, y, z)
  }

  function Plane(x0: int, x1: int, y: int, y1: int, z: int): seq<Vec3>
    decreases y1 - y
  {
    if y >= y1 then [] else Row(x0, x1, y, z) + Plane(x0, x1, y + 1, y1, z)
  }

  function Cuboid(x0: int, x1: int, y0: int, y1: int, z: int, z1: int): seq<Vec3>
    decreases z1 - z
  {
    if z >= z1 then [] else Plane(x0, x1, y0, y1, z) + Cuboid(x0, x1, y0, y1, z + 1, z1)
  }

  /** x runs fastest, then y, then z. */
  predicate Earlier(p: Vec3, q: Vec3) {
    p.z < q.z || (p.z == q.z && (p.y < q.y || (p.y == q.y && p.x < q.x)))
  }

  ghost predicate Ordered(ps: seq<Vec3>) {
    forall i, j :: 0 <= i < j < |ps| ==> Earlier(ps[i], ps[j])
  }

  predicate InBox(p: Vec3, lower: Vec3, upper: Vec3) {
    lower.x <= p.x < upper.x && lower.y <= p.y < upper.y && lower.z <= p.z < upper.z
  }

  lemma OrderedConcat(a: seq<Vec3>, b: seq<Vec3>)
    requires Ordered(a) && Ordered(b)
    requires forall p, q :: p in a && q in b ==> Earlier(p, q)
    ensures Ordered(a + b)
  {
  }

  lemma {:induction false} RowIs(x: int, x1: int, y: int, z: int)
    ensures Ordered(Row(x, x1, y, z))
    ensures forall p :: p in Row(x, x1, y, z) <==> x <= p.x < x1 && p.y == y && p.z == z
    decreases x1 - x
  {
    if x < x1 {
      RowIs(x + 1, x1, y, z);
      OrderedConcat([Vec3(x, y, z)], Row(x + 1, x1, y, z));
    }
  }

  lemma {:induction false} PlaneIs(x0: int, x1: int, y: int, y1: int, z: int)
    ensures Ordered(Plane(x0, x1, y, y1, z))
    ensures forall p :: p in Plane(x0, x1, y, y1, z) <==> x0 <= p.x < x1 && y <= p.y < y1 && p.z == z
    decreases y1 - y
  {
    if y < y1 {
      RowIs(x0, x1, y, z);
      PlaneIs(x0, x1, y + 1, y1, z);
      OrderedConcat(Row(x0, x1, y, z), Plane(x0, x1, y + 1, y1, z));
    }
  }

  /** A box is enumerated in order, hence each position once, and completely. */
  lemma {:induction false} CuboidIs(lower: Vec3, upper: Vec3)
    ensures var ps := Cuboid(lower.x, upper.x, lower.y, upper.y, lower.z, upper.z);
      Ordered(ps) && forall p :: p in ps <==> InBox(p, lower, upper)
    decreases upper.z - lower.z
  {
    if lower.z < upper.z {
      PlaneIs(lower.x, upper.x, lower.y, upper.y, lower.z);
      CuboidIs(lower.Up(1), upper);
      OrderedConcat(Plane(lower.x, upper.x, lower.y, upper.y, lower.z),
        Cuboid(lower.x, upper.x, lower.y, upper.y, lower.z + 1, upper.z));
    }
  }

  /** Of two positions the one with the smaller z comes first, in a plane the one with the
      smaller y, in a row the one with the smaller x. */
  lemma SlowestLast(lower: Vec3, upper: Vec3, i: nat, j: nat)
    requires i < j < |Cuboid(lower.x, upper.x, lower.y, upper.y, lower.z, upper.z)|
    ensures var ps := Cuboid(lower.x, upper.x, lower.y, upper.y, lower.z, upper.z); var p, q := ps[i], ps[j];
      && p.z <= q.z
      && (p.z == q.z ==> p.y <= q.y)
      && (p.z == q.z && p.y == q.y ==> p.x < q.x)
  {
    CuboidIs(lower, upper);
    hide Cuboid;
  }

  // ----- what is left of an enumeration

  /** From `current` on: the rest of its row, of its plane and of the box. */
  function From(current: Vec3, begin: Vec2, end: Vec3): seq<Vec3> {
    if current.z >= end.z then []
    else
      Row(current.x, end.x, current.y, current.z) +
      (Plane(begin.x, end.x, current.y + 1, end.y, current.z) +
       Cuboid(begin.x, end.x, begin.y, end.y, current.z + 1, end.z))
  }

  function Succ(c: Vec3, begin: Vec2, end: Vec3): Vec3 {
    if c.x + 1 != end.x then Vec3(c.x + 1, c.y, c.z)
    else if c.y + 1 != end.y then Vec3(begin.x, c.y + 1, c.z)
    else Vec3(begin.x, begin.y, c.z + 1)
  }

  lemma FromStep(c: Vec3, begin: Vec2, end: Vec3)
    requires begin.x <= c.x < end.x && begin.y <= c.y < end.y && c.z < end.z
    ensures From(c, begin, end) == [c] + From(Succ(c, begin, end), begin, end)
  {
    RowStep(c.x, end.x, c.y, c.z);
    RowStep(c.x + 1, end.x, c.y, c.z);
    PlaneStep(begin.x, end.x, c.y + 1, end.y, c.z);
    hide Row, Plane, Cuboid;
    var row, plane := Row(c.x + 1, end.x, c.y, c.z), Plane(begin.x, end.x, c.y + 1, end.y, c.z);
    var above := Cuboid(begin.x, end.x, begin.y, end.y, c.z + 1, end.z);
    Associate([c], row, plane + above);
    if c.x + 1 == end.x {
      if c.y + 1 == end.y {
        AllFrom(Vec3(begin.x, begin.y, c.z + 1), end);
      } else {
        Associate(Row(begin.x, end.x, c.y + 1, c.z), Plane(begin.x, end.x, c.y + 2, end.y, c.z), above);
      }
    }
  }

  lemma Associate(a: seq<Vec3>, b: seq<Vec3>, c: seq<Vec3>)
    ensures (a + b) + c == a + (b + c)
  {
  }

  lemma RowStep(x: int, x1: int, y: int, z: int)
    ensures Row(x, x1, y, z) == if x >= x1 then [] else [Vec3(x, y, z)] + Row(x + 1, x1, y, z)
  {
  }

  lemma PlaneStep(x0: int, x1: int, y: int, y1: int, z: int)
    ensures Plane(x0, x1, y, y1, z) == if y >= y1 then [] else Row(x0, x1, y, z) + Plane(x0, x1, y + 1, y1, z)
  {
  }

  lemma AllFrom(lower: Vec3, end: Vec3)
    requires lower.x < end.x && lower.y < end.y
    ensures From(lower, Vec2(lower.x, lower.y), end) ==
            Cuboid(lower.x, end.x, lower.y, end.y, lower.z, end.z)
  {
    PlaneStep(lower.x, end.x, lower.y, end.y, lower.z);
    CuboidStep(lower.x, end.x, lower.y, end.y, lower.z, end.z);
    hide Row, Plane, Cuboid;
    Associate(Row(lower.x, end.x, lower.y, lower.z), Plane(lower.x, end.x, lower.y + 1, end.y, lower.z),
      Cuboid(lower.x, end.x, lower.y, end.y, lower.z + 1, end.z));
  }

  lemma CuboidStep(x0: int, x1: int, y0: int, y1: int, z: int, z1: int)
    ensures Cuboid(x0, x1, y0, y1, z, z1) ==
      if z >= z1 then [] else Plane(x0, x1, y0, y1, z) + Cuboid(x0, x1, y0, y1, z + 1, z1)
  {
  }

  lemma {:induction false} EmptyCuboid(x0: int, x1: int, y0: int, y1: int, z: int, z1: int)
    requires x0 >= x1 || y0 >= y1
    ensures Cuboid(x0, x1, y0, y1, z, z1) == []
    decreases z1 - z
  {
    if z < z1 {
      PlaneIs(x0, x1, y0, y1, z);
      assert Plane(x0, x1, y0, y1, z) != [] ==> Plane(x0, x1, y0, y1, z)[0] in Plane(x0, x1, y0, y1, z);
      EmptyCuboid(x0, x1, y0, y1, z + 1, z1);
    }
  }

  class DefaultPosIterator {
    var current: Vec3
    const begin: Vec2
    const end: Vec3

    ghost predicate Valid()
      reads this
    {
      && current.z <= end.z
      && (current.z < end.z ==> begin.x <= current.x < end.x && begin.y <= current.y < end.y)
    }

    /** What is still to come. */
    ghost function Rest(): seq<Vec3>
      reads this
    {
      From(current, begin, end)
    }

    constructor (lower: Vec3, upper: Vec3)
      ensures Valid()
      ensures Rest() == Cuboid(lower.x, upper.x, lower.y, upper.y, lower.z, upper.z)
    {
      current := lower;
      begin := Vec2(lower.x, lower.y);
      end := if lower.x < upper.x && lower.y < upper.y && lower.z < upper.z then upper else lower;
      new;
      if end == upper && lower.x < upper.x && lower.y < upper.y {
        AllFrom(lower, end);
      } else {
        if lower.z < upper.z {
          EmptyCuboid(lower.x, upper.x, lower.y, upper.y, lower.z, upper.z);
        }
      }
    }

    method Next() returns (ret: Option<Vec3>)
      requires Valid()
      modifies this
      ensures Valid()
      ensures if old(Rest()) == [] then ret.None? && Rest() == []
              else ret == Some(old(Rest())[0]) && Rest() == old(Rest())[1..]
    {
      if current.z == end.z {
        return None;
      }
      FromStep(current, begin, end);
      ghost var c := current;
      ret := Some(current);
      current := Vec3(current.x + 1, current.y, current.z);
      if current.x == end.x {
        current := Vec3(begin.x, current.y + 1, current.z);
        if current.y == end.y {
          current := Vec3(current.x, begin.y, current.z + 1);
        }
      }
      assert current == Succ(c, begin, end);
    }
  }

  // ----- the readable positions

  /** The readable ones of `ps` with what is read there. */
  function Readable<V(!new)>(ps: seq<Vec3>, vol: Vec3 -> Option<V>): (rs: seq<(Vec3, V)>)
    ensures forall p, v :: (p, v) in rs <==> p in ps && vol(p) == Some(v)
  {
    if ps == [] then []
    else (if vol(ps[0]).Some? then [(ps[0], vol(ps[0]).value)] else []) + Readable(ps[1..], vol)
  }

  ghost predicate OrderedPairs<V(!new)>(rs: seq<(Vec3, V)>) {
    forall i, j :: 0 <= i < j < |rs| ==> Earlier(rs[i].0, rs[j].0)
  }

  /** They keep their order. */
  lemma {:induction false} ReadableOrdered<V(!new)>(ps: seq<Vec3>, vol: Vec3 -> Option<V>)
    requires Ordered(ps)
    ensures OrderedPairs(Readable(ps, vol))
  {
    hide Earlier;
    if ps != [] {
      assert Ordered(ps[1..]);
      ReadableOrdered(ps[1..], vol);
      var rest := Readable(ps[1..], vol);
      forall j | 0 <= j < |rest|
        ensures Earlier(ps[0], rest[j].0)
      {
        assert (rest[j].0, rest[j].1) in rest;
        var k :| 0 <= k < |ps[1..]| && ps[1..][k] == rest[j].0;
        assert ps[k + 1] == rest[j].0;
      }
      var first := if vol(ps[0]).Some? then [(ps[0], vol(ps[0]).value)] else [];
      assert Readable(ps, vol) == first + rest;
    }
  }

  class DefaultVolIterator<V(!new)> {
    const vol: Vec3 -> Option<V>
    const posIter: DefaultPosIterator

    ghost predicate Valid()
      reads this, posIter
    {
      posIter.Valid()
    }

    ghost function Rest(): seq<(Vec3, V)>
      reads this, posIter
    {
      Readable(posIter.Rest(), vol)
    }

    constructor (vol: Vec3 -> Option<V>, lower: Vec3, upper: Vec3)
      ensures Valid() && fresh(posIter) && this.vol == vol
      ensures Rest() == Readable(Cuboid(lower.x, upper.x, lower.y, upper.y, lower.z, upper.z), vol)
    {
      this.vol := vol;
      this.posIter := new DefaultPosIterator(lower, upper);
    }

    method Next() returns (ret: Option<(Vec3, V)>)
      requires Valid()
      modifies posIter
      ensures Valid()
      ensures if old(Rest()) == [] then ret.None? && Rest() == []
              else ret == Some(old(Rest())[0]) && Rest() == old(Rest())[1..]
    {
      while true
        invariant posIter.Valid() && Rest() == old(Rest())
        decreases |posIter.Rest()|
      {
        var pos := posIter.Next();
        if pos.None? {
          return None;
        }
        var vox := vol(pos.value);
        if vox.Some? {
          return Some((pos.value, vox.value));
        }
      }
    }
  }
}
