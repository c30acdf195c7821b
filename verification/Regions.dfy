/** The region index of common/src/region.rs: an insertion-ordered map from keys to
    regions, each region knowing the positions of its eight neighbours. */
module Regions {
  import opened Wrappers
  import opened Arith

  const TETHER_LENGTH: int := 16
  const REGION_SIZE: int := 512

  datatype Key = Key(x: int, y: int)
  {
    function Plus(o: Key): Key {
      Key(x + o.x, y + o.y)
    }
  }

  datatype Pos = Pos(x: int, y: int, z: int)

  datatype Event =
    | Left(id: nat, to: Option<Key>)
    | Entered(id: nat, from: Option<Key>)

  datatype Region = Region(entities: set<nat>, neighbors: seq<Option<nat>>, events: seq<Event>)
  {
    predicate Removable() {
      entities == {} && events == []
    }

    function Add(id: nat, from: Option<Key>): Region {
      this.(entities := entities + {id}, events := events + [Entered(id, from)])
    }

    function Remove(id: nat, to: Option<Key>): Region {
      this.(entities := entities - {id}, events := events + [Left(id, to)])
    }
  }

  const NO_NEIGHBORS: seq<Option<nat>> := [None, None, None, None, None, None, None, None]

  /** Counter-clockwise from north. */
  function Offset(d: nat): Key
    requires d < 8
  {
    match d
    case 0 => Key(0, 1)
    case 1 => Key(-1, 1)
    case 2 => Key(-1, 0)
    case 3 => Key(-1, -1)
    case 4 => Key(0, -1)
    case 5 => Key(1, -1)
    case 6 => Key(1, 0)
    case _ => Key(1, 1)
  }

  function Opposite(d: nat): (o: nat)
    requires d < 8
    ensures o < 8 && (o + 4) % 8 == d
    ensures Offset(o) == Key(-Offset(d).x, -Offset(d).y)
  {
    (d + 4) % 8
  }

  /** The arithmetic shifts by nine bits. */
  function PosKey(p: Pos): Key {
    Key(p.x / REGION_SIZE, p.y / REGION_SIZE)
  }

  function KeyPos(k: Key): Key {
    Key(k.x * REGION_SIZE, k.y * REGION_SIZE)
  }

  /** The entity has left region `k` and strayed too far from its low corner. */
  predicate NeedsSwitch(k: Key, p: Pos) {
    PosKey(p) != k &&
    (Abs(p.x - KeyPos(k).x) > TETHER_LENGTH || Abs(p.y - KeyPos(k).y) > TETHER_LENGTH)
  }

  /** In blocks: a region is a square of 512 by 512. */
  predicate InSquare(k: Key, p: Pos) {
    512 * k.x <= p.x < 512 * k.x + 512 && 512 * k.y <= p.y < 512 * k.y + 512
  }

  lemma PosKeyIs(k: Key, p: Pos)
    ensures k == PosKey(p) <==> InSquare(k, p)
  {
  }

  /** Who need not be switched is in the square, or at most 16 from its low corner. */
  predicate Tethered(k: Key, p: Pos) {
    InSquare(k, p) || (-16 <= p.x - 512 * k.x <= 16 && -16 <= p.y - 512 * k.y <= 16)
  }

  lemma NeedsSwitchIs(k: Key, p: Pos)
    ensures !NeedsSwitch(k, p) <==> Tethered(k, p)
  {
  }

  /** The directions start in the north, and each is to the left of the one before. */
  lemma OffsetsTurnLeft(d: nat)
    requires d < 8
    ensures Offset(0) == Key(0, 1)
    ensures var a, b := Offset(d), Offset((d + 1) % 8);
      a.x * b.y - a.y * b.x == 1 && Abs(a.x - b.x) + Abs(a.y - b.y) == 1 && Abs(a.x) <= 1 && Abs(a.y) <= 1
  {
  }

  // ----- the index map: distinct keys, each with its region at the same position

  predicate Distinct(keys: seq<Key>) {
    forall i, j :: 0 <= i < j < |keys| ==> keys[i] != keys[j]
  }

  function Find(keys: seq<Key>, k: Key): (r: Option<nat>)
    ensures r.None? ==> k !in keys
    ensures r.Some? ==> r.value < |keys| && keys[r.value] == k
  {
    if keys == [] then None
    else if keys[|keys| - 1] == k then Some(|keys| - 1)
    else Find(keys[..|keys| - 1], k)
  }

  /** Slot `o` names the position of key `k`, or says it is not stored. */
  ghost predicate Names(keys: seq<Key>, k: Key, o: Option<nat>) {
    match o
    case None => k !in keys
    case Some(j) => j < |keys| && keys[j] == k
  }

  ghost predicate EightSlots(regions: seq<Region>) {
    forall i :: 0 <= i < |regions| ==> |regions[i].neighbors| == 8
  }

  /** Every slot d of every region names the position of its key plus offset d. */
  ghost predicate Indexed(keys: seq<Key>, regions: seq<Region>) {
    && |keys| == |regions|
    && Distinct(keys)
    && EightSlots(regions)
    && forall i, d :: 0 <= i < |keys| && 0 <= d < 8 ==> Names(keys, keys[i].Plus(Offset(d)), regions[i].neighbors[d])
  }

  function SetSlot(regions: seq<Region>, i: nat, d: nat, o: Option<nat>): seq<Region>
    requires i < |regions| && d < |regions[i].neighbors|
  {
    regions[i := regions[i].(neighbors := regions[i].neighbors[d := o])]
  }

  /** The same entities and events, region by region. */
  ghost predicate SameContents(a: seq<Region>, b: seq<Region>) {
    |a| == |b| && forall i :: 0 <= i < |a| ==> a[i].entities == b[i].entities && a[i].events == b[i].events
  }

  /** Contents may differ, the neighbours do not. */
  ghost predicate SameSlots(a: seq<Region>, b: seq<Region>) {
    |a| == |b| && forall i :: 0 <= i < |a| ==> a[i].neighbors == b[i].neighbors
  }

  lemma IndexedSameSlots(keys: seq<Key>, a: seq<Region>, b: seq<Region>)
    requires Indexed(keys, a) && SameSlots(a, b)
    ensures Indexed(keys, b)
  {
    forall i, d | 0 <= i < |keys| && 0 <= d < 8
      ensures Names(keys, keys[i].Plus(Offset(d)), b[i].neighbors[d])
    {
      assert Names(keys, keys[i].Plus(Offset(d)), a[i].neighbors[d]);
    }
  }

  /** Of the regions with a neighbour at `k`, those reached by the first `d` offsets
      from `k` have that slot set to `o`; nothing else has changed. */
  ghost predicate Pointed(keys: seq<Key>, before: seq<Region>, now: seq<Region>, k: Key, o: Option<nat>, d: nat) {
    && |keys| == |before| && SameContents(now, before) && EightSlots(before) && EightSlots(now)
    && forall i, e :: 0 <= i < |keys| && 0 <= e < 8 ==>
         now[i].neighbors[e] ==
         if keys[i].Plus(Offset(e)) == k && Opposite(e) < d then o else before[i].neighbors[e]
  }

  lemma PointStep(keys: seq<Key>, before: seq<Region>, now: seq<Region>, k: Key, o: Option<nat>, d: nat, j: Option<nat>)
    requires Distinct(keys) && d < 8 && Pointed(keys, before, now, k, o, d)
    requires Names(keys, k.Plus(Offset(d)), j)
    ensures Pointed(keys, before, if j.Some? then SetSlot(now, j.value, Opposite(d), o) else now, k, o, d + 1)
  {
    var next := if j.Some? then SetSlot(now, j.value, Opposite(d), o) else now;
    forall i, e | 0 <= i < |keys| && 0 <= e < 8
      ensures next[i].neighbors[e] ==
              if keys[i].Plus(Offset(e)) == k && Opposite(e) < d + 1 then o else before[i].neighbors[e]
    {
      if Opposite(e) == d {
        assert e == Opposite(d);
        assert keys[i].Plus(Offset(e)) == k <==> keys[i] == k.Plus(Offset(d));
      }
    }
  }

  /** A slot after all eight offsets. */
  lemma PointedAt(keys: seq<Key>, before: seq<Region>, now: seq<Region>, k: Key, o: Option<nat>, i: nat, e: nat)
    requires Pointed(keys, before, now, k, o, 8) && i < |keys| && e < 8
    ensures |now| == |before| == |keys| && |now[i].neighbors| == 8 && |before[i].neighbors| == 8
    ensures now[i].neighbors[e] == if keys[i].Plus(Offset(e)) == k then o else before[i].neighbors[e]
  {
  }

  // ----- insertion

  /** `insert`: the new region learns its neighbours and they learn of it. */
  method Insert(keys: seq<Key>, regions: seq<Region>, key: Key)
    returns (keys': seq<Key>, regions': seq<Region>, index: nat)
    requires Indexed(keys, regions) && key !in keys
    ensures index == |keys| && keys' == keys + [key] && Indexed(keys', regions')
    ensures SameContents(regions', regions + [Region({}, NO_NEIGHBORS, [])])
  {
    index := |keys|;
    keys' := keys + [key];
    ghost var before := regions + [Region({}, NO_NEIGHBORS, [])];
    regions' := regions + [Region({}, NO_NEIGHBORS, [])];
    var neighbors := NO_NEIGHBORS;
    hide Indexed, Pointed, Find;
    AppendStart(keys, regions, key);
    for d := 0 to 8
      invariant |regions'| == |keys'|
      invariant Pointed(keys', before, regions', key, Some(index), d)
      invariant |neighbors| == 8 && forall e :: 0 <= e < d ==> Names(keys', key.Plus(Offset(e)), neighbors[e])
      invariant forall e :: d <= e < 8 ==> neighbors[e] == None
    {
      var j := Find(keys', key.Plus(Offset(d)));
      PointStep(keys', before, regions', key, Some(index), d, j);
      if j.Some? {
        neighbors := neighbors[d := j];
        PointedSlots(keys', before, regions', key, Some(index), d);
        regions' := SetSlot(regions', j.value, Opposite(d), Some(index));
      }
    }
    InsertIndexed(keys, regions, key, regions', neighbors);
    regions' := regions'[index := regions'[index].(neighbors := neighbors)];
  }

  lemma PointedSlots(keys: seq<Key>, before: seq<Region>, now: seq<Region>, k: Key, o: Option<nat>, d: nat)
    requires Pointed(keys, before, now, k, o, d)
    ensures |now| == |keys| && SameContents(now, before) && EightSlots(now)
  {
  }

  lemma AppendStart(keys: seq<Key>, regions: seq<Region>, key: Key)
    requires Indexed(keys, regions) && key !in keys
    ensures |keys| == |regions| && Distinct(keys + [key])
    ensures var before := regions + [Region({}, NO_NEIGHBORS, [])];
      Pointed(keys + [key], before, before, key, Some(|keys|), 0)
  {
  }

  lemma InsertIndexed(keys: seq<Key>, regions: seq<Region>, key: Key, now: seq<Region>, neighbors: seq<Option<nat>>)
    requires Indexed(keys, regions) && key !in keys && |neighbors| == 8
    requires var before := regions + [Region({}, NO_NEIGHBORS, [])];
      Pointed(keys + [key], before, now, key, Some(|keys|), 8)
    requires forall e :: 0 <= e < 8 ==> Names(keys + [key], key.Plus(Offset(e)), neighbors[e])
    ensures |now| == |keys| + 1
    ensures var last := now[|keys|].(neighbors := neighbors);
      && Indexed(keys + [key], now[|keys| := last])
      && SameContents(now[|keys| := last], regions + [Region({}, NO_NEIGHBORS, [])])
  {
    var keys' := keys + [key];
    var before := regions + [Region({}, NO_NEIGHBORS, [])];
    var regions' := now[|keys| := now[|keys|].(neighbors := neighbors)];
    forall i, e | 0 <= i < |keys'| && 0 <= e < 8
      ensures Names(keys', keys'[i].Plus(Offset(e)), regions'[i].neighbors[e])
    {
      if i < |keys| {
        PointedAt(keys', before, now, key, Some(|keys|), i, e);
        NamesAppend(keys, key, keys[i].Plus(Offset(e)), regions[i].neighbors[e]);
      }
    }
  }

  lemma NamesAppend(keys: seq<Key>, key: Key, k: Key, o: Option<nat>)
    requires Names(keys, k, o) && key !in keys
    ensures Names(keys + [key], k, if k == key then Some(|keys|) else o)
  {
  }

  // ----- swap removal

  function SwapRemove<T>(s: seq<T>, i: nat): (r: seq<T>)
    requires i < |s|
    ensures |r| == |s| - 1
    ensures forall j :: 0 <= j < |r| ==> r[j] == if j == i then s[|s| - 1] else s[j]
  {
    if i == |s| - 1 then s[..i] else s[..|s| - 1][i := s[|s| - 1]]
  }

  /** `remove_index`: the last region takes the place of the removed one, and every
      slot naming either is put right, also where the two are neighbours. */
  method RemoveIndex(keys: seq<Key>, regions: seq<Region>, index: nat)
    returns (keys': seq<Key>, regions': seq<Region>)
    requires Indexed(keys, regions) && index < |keys|
    requires regions[index].entities == {}
    ensures keys' == SwapRemove(keys, index) && Indexed(keys', regions')
    ensures SameContents(regions', SwapRemove(regions, index))
  {
    var last := |keys| - 1;
    regions' := regions;
    hide Indexed, Pointed, SwapRemove;
    PointStart(keys, regions, keys[last], Some(index));
    if index != last {
      var moved := regions[last].neighbors;
      for d := 0 to 8
        invariant Pointed(keys, regions, regions', keys[last], Some(index), d)
      {
        SlotNames(keys, regions, last, d);
        PointedSlots(keys, regions, regions', keys[last], Some(index), d);
        PointStep(keys, regions, regions', keys[last], Some(index), d, moved[d]);
        if moved[d].Some? {
          regions' := SetSlot(regions', moved[d].value, Opposite(d), Some(index));
        }
      }
    }
    ghost var renamed := regions';
    PointedSlots(keys, regions, renamed, keys[last], Some(index), if index != last then 8 else 0);
    var removed := regions'[index];
    keys' := SwapRemove(keys, index);
    regions' := SwapRemove(regions', index);
    ghost var swapped := regions';
    SwapStart(keys, regions, renamed, index);
    for d := 0 to 8
      invariant Pointed(keys', swapped, regions', keys[index], None, d)
    {
      RemovedNames(keys, regions, renamed, index, d);
      PointedSlots(keys', swapped, regions', keys[index], None, d);
      PointStep(keys', swapped, regions', keys[index], None, d, removed.neighbors[d]);
      if removed.neighbors[d].Some? {
        regions' := SetSlot(regions', removed.neighbors[d].value, Opposite(d), None);
      }
    }
    RemoveIndexed(keys, regions, renamed, index, regions');
  }

  lemma PointStart(keys: seq<Key>, regions: seq<Region>, k: Key, o: Option<nat>)
    requires Indexed(keys, regions)
    ensures |keys| == |regions| && Distinct(keys) && EightSlots(regions) && Pointed(keys, regions, regions, k, o, 0)
  {
  }

  lemma SlotNames(keys: seq<Key>, regions: seq<Region>, i: nat, d: nat)
    requires Indexed(keys, regions) && i < |keys| && d < 8
    ensures |regions| == |keys| && |regions[i].neighbors| == 8
    ensures Names(keys, keys[i].Plus(Offset(d)), regions[i].neighbors[d])
  {
  }

  /** The names of the moved region point to its new position already. */
  ghost predicate Renamed(keys: seq<Key>, regions: seq<Region>, renamed: seq<Region>, index: nat)
    requires index < |keys|
  {
    && Indexed(keys, regions)
    && Pointed(keys, regions, renamed, keys[|keys| - 1], Some(index), if index != |keys| - 1 then 8 else 0)
  }

  lemma SwapStart(keys: seq<Key>, regions: seq<Region>, renamed: seq<Region>, index: nat)
    requires index < |keys| && Renamed(keys, regions, renamed, index)
    ensures |renamed| == |keys| && Distinct(SwapRemove(keys, index)) && EightSlots(SwapRemove(renamed, index))
    ensures |renamed[index].neighbors| == 8
    ensures Pointed(SwapRemove(keys, index), SwapRemove(renamed, index), SwapRemove(renamed, index),
                    keys[index], None, 0)
  {
  }

  lemma RenamedAt(keys: seq<Key>, regions: seq<Region>, renamed: seq<Region>, index: nat, i: nat, e: nat)
    requires index < |keys| && Renamed(keys, regions, renamed, index) && i < |keys| && e < 8
    ensures |renamed| == |regions| == |keys| && |renamed[i].neighbors| == 8 && |regions[i].neighbors| == 8
    ensures renamed[i].neighbors[e] ==
      if index != |keys| - 1 && keys[i].Plus(Offset(e)) == keys[|keys| - 1] then Some(index)
      else regions[i].neighbors[e]
    ensures Distinct(keys)
  {
    hide Offset;
  }

  /** The removed region's own slots name positions after the swap. */
  lemma RemovedNames(keys: seq<Key>, regions: seq<Region>, renamed: seq<Region>, index: nat, d: nat)
    requires index < |keys| && Renamed(keys, regions, renamed, index) && d < 8
    ensures |renamed| == |keys| && |renamed[index].neighbors| == 8
    ensures Names(SwapRemove(keys, index), keys[index].Plus(Offset(d)), renamed[index].neighbors[d])
  {
    hide Offset, Pointed, Indexed, SwapRemove, Names;
    SlotNames(keys, regions, index, d);
    RenamedAt(keys, regions, renamed, index, index, d);
    NotItself(keys[index], d);
    SwapNames(keys, index, keys[index].Plus(Offset(d)), regions[index].neighbors[d]);
  }

  lemma NotItself(k: Key, d: nat)
    requires d < 8
    ensures k.Plus(Offset(d)) != k
  {
  }

  /** What a name turns into when the last key moves to `index`. */
  lemma SwapNames(keys: seq<Key>, index: nat, k: Key, o: Option<nat>)
    requires Distinct(keys) && index < |keys| && Names(keys, k, o)
    ensures Names(SwapRemove(keys, index), k,
      if k == keys[index] then None else if k == keys[|keys| - 1] then Some(index) else o)
  {
    var keys' := SwapRemove(keys, index);
    if k != keys[index] && o.None? {
      assert k !in keys';
    }
    if k == keys[index] {
      forall j | 0 <= j < |keys'|
        ensures keys'[j] != k
      {
      }
    }
  }

  lemma RemoveIndexed(keys: seq<Key>, regions: seq<Region>, renamed: seq<Region>, index: nat, now: seq<Region>)
    requires index < |keys| && Renamed(keys, regions, renamed, index) && |renamed| == |keys|
    requires Pointed(SwapRemove(keys, index), SwapRemove(renamed, index), now, keys[index], None, 8)
    ensures |regions| == |keys|
    ensures Indexed(SwapRemove(keys, index), now) && SameContents(now, SwapRemove(regions, index))
  {
    var keys' := SwapRemove(keys, index);
    forall i, e | 0 <= i < |keys'| && 0 <= e < 8
      ensures Names(keys', keys'[i].Plus(Offset(e)), now[i].neighbors[e])
    {
      var from := if i == index then |keys| - 1 else i;
      SlotNames(keys, regions, from, e);
      PointedAt(keys', SwapRemove(renamed, index), now, keys[index], None, i, e);
      RenamedAt(keys, regions, renamed, index, from, e);
      NotItself(keys[from], e);
      SwapNames(keys, index, keys[from].Plus(Offset(e)), regions[from].neighbors[e]);
    }
  }
}
