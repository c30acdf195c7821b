/** `RegionMap` of common/src/region.rs and its `tick`. */
module RegionMaps {
  import opened Wrappers
  import opened Regions

  /** An entity to switch: the position of its region, its id and its position. */
  datatype Mover = Mover(i: nat, id: nat, pos: Pos)

  datatype Leaver = Leaver(i: nat, id: nat)

  // ----- what the map holds

  ghost predicate Disjoint(regions: seq<Region>) {
    forall i, j :: 0 <= i < j < |regions| ==> regions[i].entities !! regions[j].entities
  }

  ghost predicate InSome(regions: seq<Region>, id: nat) {
    exists i :: 0 <= i < |regions| && id in regions[i].entities
  }

  /** The regions partition the tracked entities. */
  ghost predicate Partition(regions: seq<Region>, tracked: set<nat>) {
    Disjoint(regions) && forall id :: id in tracked <==> InSome(regions, id)
  }

  lemma OneRegion(regions: seq<Region>, i: nat, j: nat, id: nat)
    requires Disjoint(regions) && i < |regions| && j < |regions|
    requires id in regions[i].entities && id in regions[j].entities
    ensures i == j
  {
  }

  function EnteredIds(events: seq<Event>): set<nat> {
    set e | e in events && e.Entered? :: e.id
  }

  function LeftIds(events: seq<Event>): set<nat> {
    set e | e in events && e.Left? :: e.id
  }

  /** The entities region `k` held, nothing if there was no such region. */
  function HeldBy(keys: seq<Key>, regions: seq<Region>, k: Key): set<nat>
    requires |keys| == |regions|
  {
    if Find(keys, k).Some? then regions[Find(keys, k).value].entities else {}
  }

  /** The events since (keys0, regions0) account for every region's entities; a region
      that is gone held nothing. */
  ghost predicate Ledger(keys0: seq<Key>, regions0: seq<Region>, keys: seq<Key>, regions: seq<Region>)
    requires |keys0| == |regions0| && |keys| == |regions|
  {
    && (forall i :: 0 <= i < |keys| ==>
          regions[i].entities ==
          HeldBy(keys0, regions0, keys[i]) + EnteredIds(regions[i].events) - LeftIds(regions[i].events))
    && (forall j :: 0 <= j < |keys0| ==> keys0[j] in keys || regions0[j].entities == {})
  }

  ghost predicate NoLeft(regions: seq<Region>, id: nat) {
    forall i :: 0 <= i < |regions| ==> id !in LeftIds(regions[i].events)
  }

  ghost predicate NothingLeft(regions: seq<Region>) {
    forall i :: 0 <= i < |regions| ==> LeftIds(regions[i].events) == {}
  }

  lemma EventsAppend(events: seq<Event>, e: Event)
    ensures EnteredIds(events + [e]) == EnteredIds(events) + (if e.Entered? then {e.id} else {})
    ensures LeftIds(events + [e]) == LeftIds(events) + (if e.Left? then {e.id} else {})
  {
    assert forall x :: x in events + [e] <==> x in events || x == e;
  }

  lemma FindDistinct(keys: seq<Key>, i: nat)
    requires Distinct(keys) && i < |keys|
    ensures Find(keys, keys[i]) == Some(i)
  {
  }

  // ----- adding an entity

  /** Entity `id` has entered the region at `j`, which may be new; nothing else changed. */
  ghost predicate Added(keys: seq<Key>, regions: seq<Region>, keys': seq<Key>, regions': seq<Region>, id: nat, j: nat) {
    && |keys| == |regions| <= |keys'| == |regions'| <= |keys| + 1
    && keys <= keys'
    && j < |keys'| && (|keys'| > |keys| ==> j == |keys| && keys'[j] !in keys)
    && (forall i :: 0 <= i < |keys| && i != j ==>
          regions'[i].entities == regions[i].entities && regions'[i].events == regions[i].events)
    && regions'[j].entities == (if j < |keys| then regions[j].entities else {}) + {id}
    && exists from :: regions'[j].events == (if j < |keys| then regions[j].events else []) + [Entered(id, from)]
  }

  lemma AddedPartition(keys: seq<Key>, regions: seq<Region>, keys': seq<Key>, regions': seq<Region>, id: nat, j: nat,
          tracked: set<nat>)
    requires Added(keys, regions, keys', regions', id, j) && Partition(regions, tracked) && id !in tracked
    ensures Partition(regions', tracked + {id})
  {
    assert forall i :: 0 <= i < |regions| ==> id !in regions[i].entities;
    forall x
      ensures x in tracked + {id} <==> InSome(regions', x)
    {
      if x in tracked {
        assert InSome(regions, x);
        var i :| 0 <= i < |regions| && x in regions[i].entities;
        assert x in regions'[i].entities;
      }
      if x == id {
        assert x in regions'[j].entities;
      }
      if InSome(regions', x) && x != id {
        var i :| 0 <= i < |regions'| && x in regions'[i].entities;
        assert i < |regions| && x in regions[i].entities;
      }
    }
  }

  lemma AddedKeys(keys: seq<Key>, regions: seq<Region>, keys': seq<Key>, regions': seq<Region>, id: nat, j: nat)
    requires Added(keys, regions, keys', regions', id, j)
    ensures keys <= keys' && |keys'| == |regions'| && j < |keys'|
  {
  }

  lemma HeldByNone(keys: seq<Key>, regions: seq<Region>, k: Key)
    requires |keys| == |regions| && k !in keys
    ensures HeldBy(keys, regions, k) == {}
  {
  }

  lemma AddedLedger(keys0: seq<Key>, regions0: seq<Region>, keys: seq<Key>, regions: seq<Region>,
                    keys': seq<Key>, regions': seq<Region>, id: nat, j: nat)
    requires |keys0| == |regions0| && keys0 <= keys && |keys| == |regions|
    requires Added(keys, regions, keys', regions', id, j)
    requires Ledger(keys0, regions0, keys, regions) && NoLeft([regions'[j]], id)
    ensures Ledger(keys0, regions0, keys', regions')
  {
    var events := if j < |keys| then regions[j].events else [];
    var from :| regions'[j].events == events + [Entered(id, from)];
    EventsAppend(events, Entered(id, from));
    assert id !in LeftIds([regions'[j]][0].events);
    if j == |keys| {
      assert keys'[j] !in keys0;
      HeldByNone(keys0, regions0, keys'[j]);
    }
  }

  // ----- entities waiting to be switched or removed

  /** Each mover is where it says, has its position, and moves once. */
  ghost predicate MoversOk(keys: seq<Key>, regions: seq<Region>, movers: seq<Mover>, pos: map<nat, Pos>)
    requires |keys| == |regions|
  {
    && (forall n :: 0 <= n < |movers| ==> var m := movers[n];
          && m.i < |regions| && m.id in regions[m.i].entities
          && m.id in pos && m.pos == pos[m.id] && NeedsSwitch(keys[m.i], m.pos))
    && (forall n, k :: 0 <= n < k < |movers| ==> movers[n].id != movers[k].id)
  }

  ghost predicate LeaversOk(regions: seq<Region>, leavers: seq<Leaver>, pos: map<nat, Pos>) {
    && (forall n :: 0 <= n < |leavers| ==> var l := leavers[n];
          l.i < |regions| && l.id in regions[l.i].entities && l.id !in pos)
    && (forall n, k :: 0 <= n < k < |leavers| ==> leavers[n].id != leavers[k].id)
  }

  ghost predicate IsMoving(movers: seq<Mover>, id: nat) {
    exists n :: 0 <= n < |movers| && movers[n].id == id
  }

  ghost predicate IsLeaving(leavers: seq<Leaver>, id: nat) {
    exists n :: 0 <= n < |leavers| && leavers[n].id == id
  }

  /** Every entity is near its region, or waiting to be switched or removed. */
  ghost predicate Accounted(keys: seq<Key>, regions: seq<Region>, movers: seq<Mover>, leavers: seq<Leaver>,
          pos: map<nat, Pos>)
    requires |keys| == |regions|
  {
    forall i, id :: 0 <= i < |regions| && id in regions[i].entities ==>
      if id in pos then !NeedsSwitch(keys[i], pos[id]) || IsMoving(movers, id) else IsLeaving(leavers, id)
  }

  /** Who is waiting has not left any region this tick. */
  ghost predicate NotYetLeft(regions: seq<Region>, movers: seq<Mover>, leavers: seq<Leaver>) {
    && (forall n :: 0 <= n < |movers| ==> NoLeft(regions, movers[n].id))
    && (forall n :: 0 <= n < |leavers| ==> NoLeft(regions, leavers[n].id))
  }

  /** `doomed` lists stored keys, once each, and every removable region's among them. */
  ghost predicate DoomedOk(keys: seq<Key>, regions: seq<Region>, doomed: seq<Key>)
    requires |keys| == |regions|
  {
    && Distinct(doomed)
    && (forall n :: 0 <= n < |doomed| ==> doomed[n] in keys)
    && (forall i :: 0 <= i < |regions| && regions[i].Removable() ==> keys[i] in doomed)
  }

  // ----- an entity leaving a region

  /** Entity `id` has left the region at `i`; nothing else changed. */
  ghost predicate Departed(regions: seq<Region>, regions': seq<Region>, i: nat, id: nat) {
    && |regions'| == |regions| && i < |regions| && id in regions[i].entities
    && exists to :: regions' == regions[i := regions[i].Remove(id, to)]
  }

  lemma DepartedPartition(regions: seq<Region>, regions': seq<Region>, i: nat, id: nat, tracked: set<nat>)
    requires Departed(regions, regions', i, id) && Partition(regions, tracked)
    ensures Partition(regions', tracked - {id})
  {
    forall x
      ensures x in tracked - {id} <==> InSome(regions', x)
    {
      if x in tracked - {id} {
        assert InSome(regions, x);
        var k :| 0 <= k < |regions| && x in regions[k].entities;
        assert x in regions'[k].entities;
      }
      if InSome(regions', x) {
        var k :| 0 <= k < |regions'| && x in regions'[k].entities;
        assert x in regions[k].entities && x != id;
      }
    }
  }

  lemma DepartedLedger(keys0: seq<Key>, regions0: seq<Region>, keys: seq<Key>, regions: seq<Region>,
                       regions': seq<Region>, i: nat, id: nat)
    requires |keys0| == |regions0| && |keys| == |regions| && Departed(regions, regions', i, id)
    requires Ledger(keys0, regions0, keys, regions)
    ensures Ledger(keys0, regions0, keys, regions')
  {
    var to :| regions' == regions[i := regions[i].Remove(id, to)];
    EventsAppend(regions[i].events, Left(id, to));
  }

  lemma DepartedNoLeft(regions: seq<Region>, regions': seq<Region>, i: nat, id: nat)
    requires Departed(regions, regions', i, id)
    ensures forall x :: x != id && NoLeft(regions, x) ==> NoLeft(regions', x)
    ensures NoLeft(regions, id) ==> forall k :: 0 <= k < |regions'| && k != i ==> id !in LeftIds(regions'[k].events)
  {
    var to :| regions' == regions[i := regions[i].Remove(id, to)];
    EventsAppend(regions[i].events, Left(id, to));
  }

  /** Those who wait elsewhere are still where they were. */
  lemma DepartedWaiting(keys: seq<Key>, regions: seq<Region>, regions': seq<Region>, i: nat, id: nat,
                        movers: seq<Mover>, leavers: seq<Leaver>, pos: map<nat, Pos>)
    requires |keys| == |regions| && Departed(regions, regions', i, id)
    requires MoversOk(keys, regions, movers, pos) && LeaversOk(regions, leavers, pos)
    requires !IsMoving(movers, id) && !IsLeaving(leavers, id)
    ensures MoversOk(keys, regions', movers, pos) && LeaversOk(regions', leavers, pos)
  {
    forall n | 0 <= n < |movers|
      ensures movers[n].id in regions'[movers[n].i].entities
    {
      assert movers[n].id != id;
    }
    forall n | 0 <= n < |leavers|
      ensures leavers[n].id in regions'[leavers[n].i].entities
    {
      assert leavers[n].id != id;
    }
  }

  lemma AddedWaiting(keys: seq<Key>, regions: seq<Region>, keys': seq<Key>, regions': seq<Region>, id: nat, j: nat,
                     movers: seq<Mover>, leavers: seq<Leaver>, pos: map<nat, Pos>)
    requires Added(keys, regions, keys', regions', id, j)
    requires MoversOk(keys, regions, movers, pos) && LeaversOk(regions, leavers, pos)
    ensures MoversOk(keys', regions', movers, pos) && LeaversOk(regions', leavers, pos)
  {
  }

  /** What one switch does to the waiting lists and to who is near. */
  lemma SwitchAccounted(keys: seq<Key>, regions: seq<Region>, mid: seq<Region>, keys': seq<Key>, regions': seq<Region>,
                        movers: seq<Mover>, m: Mover, leavers: seq<Leaver>, pos: map<nat, Pos>, j: nat)
    requires |keys| == |regions| && Departed(regions, mid, m.i, m.id) && Added(keys, mid, keys', regions', m.id, j)
    requires Disjoint(regions) && Accounted(keys, regions, movers + [m], leavers, pos)
    requires m.id in pos && keys'[j] == PosKey(pos[m.id])
    ensures Accounted(keys', regions', movers, leavers, pos)
  {
    hide NeedsSwitch;
    forall i, id | 0 <= i < |regions'| && id in regions'[i].entities
      ensures if id in pos then !NeedsSwitch(keys'[i], pos[id]) || IsMoving(movers, id) else IsLeaving(leavers, id)
    {
      if i == j && id == m.id {
        AtHome(keys'[j], pos[id]);
      } else {
        assert i < |regions| && id in regions[i].entities;
        assert id != m.id by {
          if id == m.id {
            OneRegion(regions, i, m.i, id);
          }
        }
        if IsMoving(movers + [m], id) && id != m.id {
          var n :| 0 <= n < |movers + [m]| && (movers + [m])[n].id == id;
          assert movers[n].id == id;
        }
      }
    }
  }

  lemma AtHome(k: Key, p: Pos)
    requires k == PosKey(p)
    ensures !NeedsSwitch(k, p)
  {
  }

  lemma SwitchDoomed(keys: seq<Key>, regions: seq<Region>, mid: seq<Region>, keys': seq<Key>, regions': seq<Region>,
                     i: nat, id: nat, j: nat, doomed: seq<Key>)
    requires |keys| == |regions| && Departed(regions, mid, i, id) && Added(keys, mid, keys', regions', id, j)
    requires DoomedOk(keys, regions, doomed)
    ensures DoomedOk(keys', regions', doomed)
  {
    var to :| mid == regions[i := regions[i].Remove(id, to)];
    assert mid[i].events != [];
    assert forall k :: 0 <= k < |regions'| && regions'[k].Removable() ==> k < |regions| && k != i && k != j;
  }

  lemma DepartedDoomed(keys: seq<Key>, regions: seq<Region>, regions': seq<Region>, i: nat, id: nat, doomed: seq<Key>)
    requires |keys| == |regions| && Departed(regions, regions', i, id) && DoomedOk(keys, regions, doomed)
    ensures DoomedOk(keys, regions', doomed)
  {
    var to :| regions' == regions[i := regions[i].Remove(id, to)];
    assert regions'[i].events != [];
  }

  lemma DepartedAccounted(keys: seq<Key>, regions: seq<Region>, regions': seq<Region>, l: Leaver,
                          leavers: seq<Leaver>, pos: map<nat, Pos>)
    requires |keys| == |regions| && Departed(regions, regions', l.i, l.id) && Disjoint(regions)
    requires Accounted(keys, regions, [], [l] + leavers, pos)
    ensures Accounted(keys, regions', [], leavers, pos)
  {
    hide NeedsSwitch;
    forall i, id | 0 <= i < |regions'| && id in regions'[i].entities
      ensures if id in pos then !NeedsSwitch(keys[i], pos[id]) || IsMoving([], id) else IsLeaving(leavers, id)
    {
      assert id in regions[i].entities;
      assert id != l.id by {
        if id == l.id {
          OneRegion(regions, i, l.i, id);
        }
      }
      if id !in pos {
        var n :| 0 <= n < |[l] + leavers| && ([l] + leavers)[n].id == id;
        assert leavers[n - 1].id == id;
      }
    }
  }

  // ----- the phases of a tick after the check

  /** The state while entities are switched and removed; (keys0, regions0) is the map
      as it was at the start of the tick, its events cleared. */
  ghost predicate Mutating(keys0: seq<Key>, regions0: seq<Region>, keys: seq<Key>, regions: seq<Region>,
                           tracked: set<nat>, movers: seq<Mover>,
                           leavers: seq<Leaver>, doomed: seq<Key>, pos: map<nat, Pos>)
  {
    && |keys0| == |regions0| && |keys| == |regions| && keys0 <= keys
    && Indexed(keys, regions)
    && Partition(regions, tracked)
    && Ledger(keys0, regions0, keys, regions)
    && MoversOk(keys, regions, movers, pos)
    && LeaversOk(regions, leavers, pos)
    && NotYetLeft(regions, movers, leavers)
    && Accounted(keys, regions, movers, leavers, pos)
    && DoomedOk(keys, regions, doomed)
  }

  lemma WaitOnce(movers: seq<Mover>, m: Mover, leavers: seq<Leaver>, keys: seq<Key>, regions: seq<Region>,
          pos: map<nat, Pos>)
    requires |keys| == |regions| && MoversOk(keys, regions, movers + [m], pos) && LeaversOk(regions, leavers, pos)
    ensures m.i < |regions| && m.id in regions[m.i].entities && m.id in pos && m.pos == pos[m.id]
    ensures NeedsSwitch(keys[m.i], m.pos)
    ensures !IsMoving(movers, m.id) && !IsLeaving(leavers, m.id) && MoversOk(keys, regions, movers, pos)
  {
    assert (movers + [m])[|movers|] == m;
    assert forall n :: 0 <= n < |movers| ==> (movers + [m])[n] == movers[n];
  }

  lemma SwitchNotYetLeft(keys: seq<Key>, regions: seq<Region>, mid: seq<Region>, keys': seq<Key>, regions': seq<Region>,
                         movers: seq<Mover>, m: Mover, leavers: seq<Leaver>, j: nat)
    requires Departed(regions, mid, m.i, m.id) && Added(keys, mid, keys', regions', m.id, j)
    requires NotYetLeft(regions, movers + [m], leavers) && !IsMoving(movers, m.id) && !IsLeaving(leavers, m.id)
    requires j != m.i
    ensures NotYetLeft(regions', movers, leavers) && NoLeft([regions'[j]], m.id)
  {
    DepartedNoLeft(regions, mid, m.i, m.id);
    AddedNoLeft(keys, mid, keys', regions', m.id, j);
    assert (movers + [m])[|movers|] == m;
    forall n | 0 <= n < |movers|
      ensures NoLeft(regions', movers[n].id)
    {
      assert (movers + [m])[n] == movers[n] && movers[n].id != m.id;
      assert NoLeft(regions, movers[n].id) && NoLeft(mid, movers[n].id);
    }
    forall n | 0 <= n < |leavers|
      ensures NoLeft(regions', leavers[n].id)
    {
      assert NoLeft(regions, leavers[n].id) && NoLeft(mid, leavers[n].id);
    }
  }

  lemma SwitchKeeps(keys0: seq<Key>, regions0: seq<Region>, keys: seq<Key>, regions: seq<Region>, tracked: set<nat>,
                    movers: seq<Mover>, m: Mover, leavers: seq<Leaver>, doomed: seq<Key>, pos: map<nat, Pos>,
                    mid: seq<Region>, keys': seq<Key>, regions': seq<Region>, j: nat)
    requires Mutating(keys0, regions0, keys, regions, tracked, movers + [m], leavers, doomed, pos)
    requires Departed(regions, mid, m.i, m.id) && Added(keys, mid, keys', regions', m.id, j)
    requires keys'[j] == PosKey(m.pos) && Indexed(keys', regions')
    ensures Mutating(keys0, regions0, keys', regions', tracked, movers, leavers, doomed, pos)
  {
    WaitOnce(movers, m, leavers, keys, regions, pos);
    assert Disjoint(regions);
    AddedKeys(keys, mid, keys', regions', m.id, j);
    assert j != m.i;
    hide Indexed, Partition, Ledger, MoversOk, LeaversOk, NotYetLeft, Accounted,
      DoomedOk, Departed, Added, NeedsSwitch, PosKey;
    DepartedPartition(regions, mid, m.i, m.id, tracked);
    AddedPartition(keys, mid, keys', regions', m.id, j, tracked - {m.id});
    TrackedAgain(regions, m.i, m.id, tracked);
    SwitchNotYetLeft(keys, regions, mid, keys', regions', movers, m, leavers, j);
    DepartedLedger(keys0, regions0, keys, regions, mid, m.i, m.id);
    AddedLedger(keys0, regions0, keys, mid, keys', regions', m.id, j);
    DepartedWaiting(keys, regions, mid, m.i, m.id, movers, leavers, pos);
    AddedWaiting(keys, mid, keys', regions', m.id, j, movers, leavers, pos);
    SwitchAccounted(keys, regions, mid, keys', regions', movers, m, leavers, pos, j);
    SwitchDoomed(keys, regions, mid, keys', regions', m.i, m.id, j, doomed);
  }

  lemma TrackedAgain(regions: seq<Region>, i: nat, id: nat, tracked: set<nat>)
    requires Partition(regions, tracked) && i < |regions| && id in regions[i].entities
    ensures id in tracked && tracked - {id} + {id} == tracked
  {
    assert InSome(regions, id);
  }

  lemma LeaveOnce(l: Leaver, leavers: seq<Leaver>, regions: seq<Region>, pos: map<nat, Pos>)
    requires LeaversOk(regions, [l] + leavers, pos)
    ensures l.i < |regions| && l.id in regions[l.i].entities && l.id !in pos
    ensures !IsLeaving(leavers, l.id) && LeaversOk(regions, leavers, pos)
  {
    assert ([l] + leavers)[0] == l;
    assert forall n :: 0 <= n < |leavers| ==> ([l] + leavers)[n + 1] == leavers[n];
  }

  lemma LeaveKeeps(keys0: seq<Key>, regions0: seq<Region>, keys: seq<Key>, regions: seq<Region>, tracked: set<nat>,
                   l: Leaver, leavers: seq<Leaver>, doomed: seq<Key>, pos: map<nat, Pos>, regions': seq<Region>)
    requires Mutating(keys0, regions0, keys, regions, tracked, [], [l] + leavers, doomed, pos)
    requires Departed(regions, regions', l.i, l.id) && SameSlots(regions, regions')
    ensures Mutating(keys0, regions0, keys, regions', tracked - {l.id}, [], leavers, doomed, pos)
  {
    LeaveOnce(l, leavers, regions, pos);
    LeaveNotYetLeft(regions, l, leavers, regions');
    assert Disjoint(regions);
    hide Indexed, Partition, Ledger, MoversOk, LeaversOk, NotYetLeft, Accounted, DoomedOk, Departed, SameSlots;
    IndexedSameSlots(keys, regions, regions');
    DepartedPartition(regions, regions', l.i, l.id, tracked);
    DepartedLedger(keys0, regions0, keys, regions, regions', l.i, l.id);
    NobodyMoves(keys, regions, pos);
    DepartedWaiting(keys, regions, regions', l.i, l.id, [], leavers, pos);
    DepartedAccounted(keys, regions, regions', l, leavers, pos);
    DepartedDoomed(keys, regions, regions', l.i, l.id, doomed);
  }

  lemma LeaveNotYetLeft(regions: seq<Region>, l: Leaver, leavers: seq<Leaver>, regions': seq<Region>)
    requires Departed(regions, regions', l.i, l.id) && NotYetLeft(regions, [], [l] + leavers) &&
             !IsLeaving(leavers, l.id)
    ensures NotYetLeft(regions', [], leavers)
  {
    DepartedNoLeft(regions, regions', l.i, l.id);
    forall n | 0 <= n < |leavers|
      ensures NoLeft(regions', leavers[n].id)
    {
      assert ([l] + leavers)[n + 1] == leavers[n] && leavers[n].id != l.id;
    }
  }

  lemma NobodyMoves(keys: seq<Key>, regions: seq<Region>, pos: map<nat, Pos>)
    requires |keys| == |regions|
    ensures MoversOk(keys, regions, [], pos) && forall id :: !IsMoving([], id)
  {
  }

  // ----- what the events say

  /** An event of region `key` in a tick from (keys0, regions0). Only who was there leaves, for
      the region of its position if it has to be switched, for none if it has no position.
      Whoever enters does so at the region of its position, from the region it was in; none is
      named for an entity that was in none, or by a region that was not there. */
  ghost predicate Truth(keys0: seq<Key>, regions0: seq<Region>, key: Key, e: Event, pos: map<nat, Pos>)
    requires |keys0| == |regions0|
  {
    match e
    case Left(id, to) =>
      && id in HeldBy(keys0, regions0, key)
      && (if id in pos then NeedsSwitch(key, pos[id]) && to == Some(PosKey(pos[id])) else to == None)
    case Entered(id, from) =>
      && id in pos && key == PosKey(pos[id])
      && (match from
          case Some(k) => id in HeldBy(keys0, regions0, k) && NeedsSwitch(k, pos[id])
          case None => !InSome(regions0, id) || key !in keys0)
  }

  predicate SameKind(a: Event, b: Event) {
    a.id == b.id && (a.Left? <==> b.Left?)
  }

  /** Over all regions no entity leaves twice, and none enters twice. */
  ghost predicate Once(regions: seq<Region>) {
    forall i, a, j, b :: 0 <= i < |regions| && 0 <= a < |regions[i].events| &&
                         0 <= j < |regions| && 0 <= b < |regions[j].events| &&
                         SameKind(regions[i].events[a], regions[j].events[b]) ==>
      i == j && a == b
  }

  /** No region has logged that the entity of `e` left, or entered. */
  ghost predicate NoneLike(regions: seq<Region>, e: Event) {
    forall i, x :: 0 <= i < |regions| && x in regions[i].events ==> !SameKind(x, e)
  }

  /** All events are true, and each is logged once. */
  ghost predicate Truthful(keys0: seq<Key>, regions0: seq<Region>, keys: seq<Key>, regions: seq<Region>,
                           pos: map<nat, Pos>)
    requires |keys0| == |regions0| && |keys| == |regions|
  {
    && (forall i, e :: 0 <= i < |regions| && e in regions[i].events ==> Truth(keys0, regions0, keys[i], e, pos))
    && Once(regions)
  }

  /** The region at `j`, which may be new, has logged `e`, and no other has logged anything. */
  ghost predicate Logged(regions: seq<Region>, regions': seq<Region>, j: nat, e: Event) {
    && |regions| <= |regions'| && j < |regions'|
    && (forall i :: 0 <= i < |regions'| && i != j ==> i < |regions| && regions'[i].events == regions[i].events)
    && regions'[j].events == (if j < |regions| then regions[j].events else []) + [e]
  }

  /** Every event of `regions'` but the last of the region at `j` is one of `regions`. */
  lemma LoggedBefore(regions: seq<Region>, regions': seq<Region>, j: nat, e: Event, i: nat, a: nat)
    requires Logged(regions, regions', j, e) && i < |regions'| && a < |regions'[i].events|
    ensures if i == j && a == |regions'[j].events| - 1 then regions'[i].events[a] == e
            else i < |regions| && a < |regions[i].events| && regions'[i].events[a] == regions[i].events[a]
                 && regions'[i].events[a] in regions[i].events
  {
  }

  lemma OnceMore(regions: seq<Region>, regions': seq<Region>, j: nat, e: Event)
    requires Once(regions) && NoneLike(regions, e) && Logged(regions, regions', j, e)
    ensures Once(regions')
  {
    var n := |regions'[j].events| - 1;
    forall i: nat, a: nat, k: nat, b: nat | i < |regions'| && a < |regions'[i].events| &&
                                            k < |regions'| && b < |regions'[k].events| &&
                                            SameKind(regions'[i].events[a], regions'[k].events[b])
      ensures i == k && a == b
    {
      assert SameKind(regions'[k].events[b], regions'[i].events[a]);
      LoggedBefore(regions, regions', j, e, i, a);
      LoggedBefore(regions, regions', j, e, k, b);
      if (i != j || a != n) && (k != j || b != n) {
        assert SameKind(regions[i].events[a], regions[k].events[b]);
      }
    }
  }

  lemma NoneLeft(regions: seq<Region>, id: nat, to: Option<Key>)
    requires NoLeft(regions, id)
    ensures NoneLike(regions, Left(id, to))
  {
    forall i, x | 0 <= i < |regions| && x in regions[i].events
      ensures !SameKind(x, Left(id, to))
    {
      assert x.Left? ==> x.id in LeftIds(regions[i].events);
    }
  }

  /** Who has entered and not left is there. */
  lemma EnteredIsThere(keys0: seq<Key>, regions0: seq<Region>, keys: seq<Key>, regions: seq<Region>, i: nat, e: Event)
    requires |keys0| == |regions0| && |keys| == |regions| && i < |regions| && Ledger(keys0, regions0, keys, regions)
    requires e in regions[i].events && e.Entered? && e.id !in LeftIds(regions[i].events)
    ensures e.id in regions[i].entities
  {
    assert e.id in EnteredIds(regions[i].events);
  }

  /** Who is not tracked has not entered. */
  lemma NewNotEntered(keys0: seq<Key>, regions0: seq<Region>, keys: seq<Key>, regions: seq<Region>, tracked: set<nat>,
                      id: nat, from: Option<Key>)
    requires |keys0| == |regions0| && |keys| == |regions| && Ledger(keys0, regions0, keys, regions)
    requires Partition(regions, tracked) && id !in tracked && NothingLeft(regions)
    ensures NoneLike(regions, Entered(id, from))
  {
    hide Ledger, LeftIds;
    forall i, x | 0 <= i < |regions| && x in regions[i].events
      ensures !SameKind(x, Entered(id, from))
    {
      if x.Entered? {
        EnteredIsThere(keys0, regions0, keys, regions, i, x);
        assert InSome(regions, x.id);
      }
    }
  }

  /** Nor has who has to be switched: it would be at home. */
  lemma MoverNotEntered(keys0: seq<Key>, regions0: seq<Region>, keys: seq<Key>, regions: seq<Region>, i: nat, id: nat,
                        pos: map<nat, Pos>, from: Option<Key>)
    requires |keys0| == |regions0| && |keys| == |regions| && i < |regions| && id in regions[i].entities
    requires Ledger(keys0, regions0, keys, regions) && Truthful(keys0, regions0, keys, regions, pos)
    requires Disjoint(regions) && NoLeft(regions, id) && id in pos && NeedsSwitch(keys[i], pos[id])
    ensures NoneLike(regions, Entered(id, from))
  {
    hide Ledger, LeftIds, NeedsSwitch;
    forall k, x | 0 <= k < |regions| && x in regions[k].events
      ensures !SameKind(x, Entered(id, from))
    {
      if x.Entered? && x.id == id {
        EnteredIsThere(keys0, regions0, keys, regions, k, x);
        OneRegion(regions, i, k, id);
        assert Truth(keys0, regions0, keys[k], x, pos);
        AtHome(keys[k], pos[id]);
      }
    }
  }

  lemma AddedTruthful(keys0: seq<Key>, regions0: seq<Region>, keys: seq<Key>, regions: seq<Region>,
                      keys': seq<Key>, regions': seq<Region>, id: nat, j: nat, e: Event, pos: map<nat, Pos>)
    requires |keys0| == |regions0| && Added(keys, regions, keys', regions', id, j)
    requires regions'[j].events == (if j < |keys| then regions[j].events else []) + [e]
    requires Truthful(keys0, regions0, keys, regions, pos) && Truth(keys0, regions0, keys'[j], e, pos)
    requires NoneLike(regions, e)
    ensures Truthful(keys0, regions0, keys', regions', pos)
  {
    OnceMore(regions, regions', j, e);
    hide Truth, Once;
    forall i, x | 0 <= i < |regions'| && x in regions'[i].events
      ensures Truth(keys0, regions0, keys'[i], x, pos)
    {
      if i == j && x == e {
      } else {
        assert i < |regions| && x in regions[i].events && keys'[i] == keys[i];
      }
    }
  }

  lemma DepartedTruthful(keys0: seq<Key>, regions0: seq<Region>, keys: seq<Key>, regions: seq<Region>,
                         i: nat, id: nat, to: Option<Key>, pos: map<nat, Pos>)
    requires |keys0| == |regions0| && |keys| == |regions| && i < |regions|
    requires Truthful(keys0, regions0, keys, regions, pos) && Truth(keys0, regions0, keys[i], Left(id, to), pos)
    requires NoLeft(regions, id)
    ensures Truthful(keys0, regions0, keys, regions[i := regions[i].Remove(id, to)], pos)
  {
    var regions' := regions[i := regions[i].Remove(id, to)];
    NoneLeft(regions, id, to);
    OnceMore(regions, regions', i, Left(id, to));
    hide Truth, Once;
    forall k, x | 0 <= k < |regions'| && x in regions'[k].events
      ensures Truth(keys0, regions0, keys[k], x, pos)
    {
      if x in regions[k].events {
      } else {
        assert k == i && x == Left(id, to);
      }
    }
  }

  /** Who is in a region it has to leave has been there since the start of the tick. */
  lemma ThereBefore(keys0: seq<Key>, regions0: seq<Region>, keys: seq<Key>, regions: seq<Region>,
                    i: nat, id: nat, pos: map<nat, Pos>)
    requires |keys0| == |regions0| && |keys| == |regions| && i < |regions| && id in regions[i].entities
    requires Ledger(keys0, regions0, keys, regions) && Truthful(keys0, regions0, keys, regions, pos)
    requires id in pos ==> NeedsSwitch(keys[i], pos[id])
    ensures id in HeldBy(keys0, regions0, keys[i])
  {
    EnteredAtHome(keys0, regions0, keys, regions, i, id, pos);
  }

  lemma EnteredAtHome(keys0: seq<Key>, regions0: seq<Region>, keys: seq<Key>, regions: seq<Region>,
                      i: nat, id: nat, pos: map<nat, Pos>)
    requires |keys0| == |regions0| && |keys| == |regions| && i < |regions|
    requires Truthful(keys0, regions0, keys, regions, pos)
    ensures id in EnteredIds(regions[i].events) ==> id in pos && !NeedsSwitch(keys[i], pos[id])
  {
    if id in EnteredIds(regions[i].events) {
      var e :| e in regions[i].events && e.Entered? && e.id == id;
      assert Truth(keys0, regions0, keys[i], e, pos);
      AtHome(keys[i], pos[id]);
    }
  }

  /** What switching writes down. */
  lemma SwitchTruthful(keys0: seq<Key>, regions0: seq<Region>, keys: seq<Key>, regions: seq<Region>, mid: seq<Region>,
                       keys': seq<Key>, regions': seq<Region>, i: nat, id: nat, pos: map<nat, Pos>, j: nat)
    requires |keys0| == |regions0| && |keys| == |regions| && keys0 <= keys && i < |regions| && id in regions[i].entities
    requires Ledger(keys0, regions0, keys, regions) && Truthful(keys0, regions0, keys, regions, pos)
    requires id in pos && NeedsSwitch(keys[i], pos[id]) && Disjoint(regions) && NoLeft(regions, id)
    requires mid == regions[i := regions[i].Remove(id, Some(PosKey(pos[id])))]
    requires Added(keys, mid, keys', regions', id, j) && keys'[j] == PosKey(pos[id])
    requires regions'[j].events ==
      (if j < |keys| then mid[j].events else []) + [Entered(id, if j < |keys| then Some(keys[i]) else None)]
    ensures Truthful(keys0, regions0, keys', regions', pos)
  {
    var e := Entered(id, if j < |keys| then Some(keys[i]) else None);
    ThereBefore(keys0, regions0, keys, regions, i, id, pos);
    MoverNotEntered(keys0, regions0, keys, regions, i, id, pos, e.from);
    hide NeedsSwitch, Ledger, Truthful, HeldBy, PosKey, Disjoint, NoLeft;
    DepartedTruthful(keys0, regions0, keys, regions, i, id, Some(PosKey(pos[id])), pos);
    AddedTruthful(keys0, regions0, keys, mid, keys', regions', id, j, e, pos);
  }

  lemma LeaveTruthful(keys0: seq<Key>, regions0: seq<Region>, keys: seq<Key>, regions: seq<Region>,
                      i: nat, id: nat, pos: map<nat, Pos>)
    requires |keys0| == |regions0| && |keys| == |regions| && i < |regions| && id in regions[i].entities && id !in pos
    requires Ledger(keys0, regions0, keys, regions) && Truthful(keys0, regions0, keys, regions, pos)
    requires NoLeft(regions, id)
    ensures Truthful(keys0, regions0, keys, regions[i := regions[i].Remove(id, None)], pos)
  {
    ThereBefore(keys0, regions0, keys, regions, i, id, pos);
    DepartedTruthful(keys0, regions0, keys, regions, i, id, None, pos);
  }

  lemma PruneTruthful(keys0: seq<Key>, regions0: seq<Region>, keys: seq<Key>, regions: seq<Region>, i: nat,
                      keys': seq<Key>, regions': seq<Region>, pos: map<nat, Pos>)
    requires |keys0| == |regions0| && |keys| == |regions| && i < |keys| && Truthful(keys0, regions0, keys, regions, pos)
    requires keys' == SwapRemove(keys, i) && SameContents(regions', SwapRemove(regions, i))
    ensures |keys'| == |regions'| && Truthful(keys0, regions0, keys', regions', pos)
  {
    OnceLess(regions, i, regions');
    hide Truth, Once;
  }

  lemma OnceLess(regions: seq<Region>, i: nat, regions': seq<Region>)
    requires Once(regions) && i < |regions| && SameContents(regions', SwapRemove(regions, i))
    ensures Once(regions')
  {
    var last := |regions| - 1;
    assert forall k :: 0 <= k < |regions'| ==> regions'[k].events == regions[if k == i then last else k].events;
    hide SameKind, SwapRemove;
    forall k, a, j, b | 0 <= k < |regions'| && 0 <= a < |regions'[k].events| &&
                        0 <= j < |regions'| && 0 <= b < |regions'[j].events| &&
                        SameKind(regions'[k].events[a], regions'[j].events[b])
      ensures k == j && a == b
    {
      var k', j' := if k == i then last else k, if j == i then last else j;
      assert SameKind(regions[k'].events[a], regions[j'].events[b]);
    }
  }

  /** The cleared map tells the same as the old one. */
  lemma ClearedTruthful(keys0: seq<Key>, old0: seq<Region>, regions0: seq<Region>, keys: seq<Key>, regions: seq<Region>,
                        pos: map<nat, Pos>)
    requires |keys0| == |old0| == |regions0| && |keys| == |regions| && Truthful(keys0, regions0, keys, regions, pos)
    requires forall i :: 0 <= i < |regions0| ==> regions0[i].entities == old0[i].entities
    ensures Truthful(keys0, old0, keys, regions, pos)
  {
    assert forall k :: HeldBy(keys0, old0, k) == HeldBy(keys0, regions0, k);
    forall id
      ensures InSome(old0, id) <==> InSome(regions0, id)
    {
      assert forall i :: 0 <= i < |old0| && id in old0[i].entities ==> id in regions0[i].entities;
    }
  }

  // ----- the end of a tick

  /** Nobody waits; only the listed regions may be removable. */
  ghost predicate Settled(keys0: seq<Key>, regions0: seq<Region>, keys: seq<Key>, regions: seq<Region>,
                          tracked: set<nat>, doomed: seq<Key>, pos: map<nat, Pos>)
  {
    && |keys0| == |regions0| && |keys| == |regions| && Distinct(keys0)
    && Indexed(keys, regions)
    && Partition(regions, tracked)
    && Ledger(keys0, regions0, keys, regions)
    && Accounted(keys, regions, [], [], pos)
    && DoomedOk(keys, regions, doomed)
  }

  /** Every entity is near its region, at most a neighbour away from the region of its position. */
  ghost predicate Near(keys: seq<Key>, regions: seq<Region>, pos: map<nat, Pos>)
    requires |keys| == |regions|
  {
    forall i, id :: 0 <= i < |regions| && id in regions[i].entities ==>
      id in pos && !NeedsSwitch(keys[i], pos[id])
  }

  /** The same in blocks: everyone is in the square of its region, or at most 16 from the low corner. */
  ghost predicate NearInBlocks(keys: seq<Key>, regions: seq<Region>, pos: map<nat, Pos>)
    requires |keys| == |regions|
  {
    forall i, id :: 0 <= i < |regions| && id in regions[i].entities ==> id in pos && Tethered(keys[i], pos[id])
  }

  lemma NearIsInBlocks(keys: seq<Key>, regions: seq<Region>, pos: map<nat, Pos>)
    requires |keys| == |regions| && Near(keys, regions, pos)
    ensures NearInBlocks(keys, regions, pos)
  {
    hide NeedsSwitch, Tethered;
    forall i, id | 0 <= i < |regions| && id in regions[i].entities
      ensures id in pos && Tethered(keys[i], pos[id])
    {
      NeedsSwitchIs(keys[i], pos[id]);
    }
  }

  ghost predicate IsNear(keys: seq<Key>, regions: seq<Region>, id: nat, pos: Pos)
    requires |keys| == |regions|
  {
    exists i :: 0 <= i < |regions| && id in regions[i].entities && !NeedsSwitch(keys[i], pos)
  }

  lemma DoomedStored(keys0: seq<Key>, regions0: seq<Region>, keys: seq<Key>, regions: seq<Region>, tracked: set<nat>,
                     key: Key, doomed: seq<Key>, pos: map<nat, Pos>)
    requires Settled(keys0, regions0, keys, regions, tracked, [key] + doomed, pos)
    ensures Indexed(keys, regions) && |keys| == |regions| && Find(keys, key).Some?
  {
    assert ([key] + doomed)[0] == key;
  }

  lemma PruneSkips(keys0: seq<Key>, regions0: seq<Region>, keys: seq<Key>, regions: seq<Region>, tracked: set<nat>,
                   key: Key, doomed: seq<Key>, pos: map<nat, Pos>, i: nat)
    requires Settled(keys0, regions0, keys, regions, tracked, [key] + doomed, pos)
    requires i < |regions| && i < |keys| && keys[i] == key && !regions[i].Removable()
    ensures Settled(keys0, regions0, keys, regions, tracked, doomed, pos)
  {
    assert forall n :: 0 <= n < |doomed| ==> ([key] + doomed)[n + 1] == doomed[n];
  }

  lemma PruneKeeps(keys0: seq<Key>, regions0: seq<Region>, keys: seq<Key>, regions: seq<Region>, tracked: set<nat>,
                   key: Key, doomed: seq<Key>, pos: map<nat, Pos>, i: nat, keys': seq<Key>, regions': seq<Region>)
    requires Settled(keys0, regions0, keys, regions, tracked, [key] + doomed, pos)
    requires i < |regions| && |regions| == |keys| && keys[i] == key && regions[i].Removable()
    requires keys' == SwapRemove(keys, i) && SameContents(regions', SwapRemove(regions, i)) && Indexed(keys', regions')
    ensures Settled(keys0, regions0, keys', regions', tracked, doomed, pos)
  {
    assert Distinct(keys);
    hide NeedsSwitch, Indexed, Partition, Ledger, Accounted, DoomedOk, SwapRemove, SameContents;
    PrunePartition(regions, tracked, i, regions');
    PruneLedger(keys0, regions0, keys, regions, i, keys', regions');
    PruneDoomed(keys, regions, key, doomed, i, keys', regions');
    PruneAccounted(keys, regions, i, keys', regions', pos);
  }

  lemma PruneAccounted(keys: seq<Key>, regions: seq<Region>, i: nat, keys': seq<Key>, regions': seq<Region>,
          pos: map<nat, Pos>)
    requires |keys| == |regions| && i < |keys| && Accounted(keys, regions, [], [], pos)
    requires keys' == SwapRemove(keys, i) && SameContents(regions', SwapRemove(regions, i))
    ensures |keys'| == |regions'| && Accounted(keys', regions', [], [], pos)
  {
    hide NeedsSwitch;
  }

  lemma PruneDoomed(keys: seq<Key>, regions: seq<Region>, key: Key, doomed: seq<Key>, i: nat, keys': seq<Key>,
          regions': seq<Region>)
    requires |keys| == |regions| && Distinct(keys) &&
             DoomedOk(keys, regions, [key] + doomed) && i < |keys| && keys[i] == key
    requires keys' == SwapRemove(keys, i) && SameContents(regions', SwapRemove(regions, i))
    ensures DoomedOk(keys', regions', doomed)
  {
    assert forall n :: 0 <= n < |doomed| ==> ([key] + doomed)[n + 1] == doomed[n];
    forall n | 0 <= n < |doomed|
      ensures doomed[n] in keys'
    {
      assert ([key] + doomed)[n + 1] != ([key] + doomed)[0];
      var k :| 0 <= k < |keys| && keys[k] == doomed[n];
      assert keys'[if k == |keys| - 1 then i else k] == doomed[n];
    }
    forall k | 0 <= k < |regions'| && regions'[k].Removable()
      ensures keys'[k] in doomed
    {
      var from := if k == i then |keys| - 1 else k;
      assert regions[from].Removable() && keys[from] != key;
    }
  }

  lemma PrunePartition(regions: seq<Region>, tracked: set<nat>, i: nat, regions': seq<Region>)
    requires Partition(regions, tracked) && i < |regions| && regions[i].entities == {}
    requires SameContents(regions', SwapRemove(regions, i))
    ensures Partition(regions', tracked)
  {
    forall id
      ensures id in tracked <==> InSome(regions', id)
    {
      if InSome(regions, id) {
        var k :| 0 <= k < |regions| && id in regions[k].entities;
        assert id in regions'[if k == |regions| - 1 then i else k].entities;
      }
      if InSome(regions', id) {
        var k :| 0 <= k < |regions'| && id in regions'[k].entities;
        assert id in regions[if k == i then |regions| - 1 else k].entities;
      }
    }
  }

  lemma PruneLedger(keys0: seq<Key>, regions0: seq<Region>, keys: seq<Key>, regions: seq<Region>, i: nat,
                    keys': seq<Key>, regions': seq<Region>)
    requires |keys0| == |regions0| && |keys| == |regions| && Distinct(keys0) && i < |keys|
    requires Ledger(keys0, regions0, keys, regions) && regions[i].Removable()
    requires keys' == SwapRemove(keys, i) && SameContents(regions', SwapRemove(regions, i))
    ensures |keys'| == |regions'| && Ledger(keys0, regions0, keys', regions')
  {
    assert HeldBy(keys0, regions0, keys[i]) == {} by {
      assert EnteredIds([]) == {} && LeftIds([]) == {};
    }
    forall j | 0 <= j < |keys0|
      ensures keys0[j] in keys' || regions0[j].entities == {}
    {
      if keys0[j] == keys[i] {
        FindDistinct(keys0, j);
      } else if keys0[j] in keys {
        var k :| 0 <= k < |keys| && keys[k] == keys0[j];
        assert keys'[if k == |keys| - 1 then i else k] == keys0[j];
      }
    }
    forall k | 0 <= k < |keys'|
      ensures regions'[k].entities ==
              HeldBy(keys0, regions0, keys'[k]) + EnteredIds(regions'[k].events) - LeftIds(regions'[k].events)
    {
      var from := if k == i then |keys| - 1 else k;
      assert regions'[k].events == regions[from].events && keys'[k] == keys[from];
    }
  }

  lemma ClearedPartition(regions: seq<Region>, cleared: seq<Region>, tracked: set<nat>)
    requires Partition(regions, tracked) && |cleared| == |regions|
    requires forall i :: 0 <= i < |regions| ==> cleared[i].entities == regions[i].entities
    ensures Partition(cleared, tracked)
  {
    forall id
      ensures id in tracked <==> InSome(cleared, id)
    {
      if InSome(regions, id) {
        var k :| 0 <= k < |regions| && id in regions[k].entities;
        assert id in cleared[k].entities;
      }
      if InSome(cleared, id) {
        var k :| 0 <= k < |cleared| && id in cleared[k].entities;
        assert id in regions[k].entities;
      }
    }
  }

  lemma MutatingStart(keys0: seq<Key>, regions0: seq<Region>, keys: seq<Key>, regions: seq<Region>, tracked: set<nat>,
                      movers: seq<Mover>, leavers: seq<Leaver>, doomed: seq<Key>, pos: map<nat, Pos>)
    requires |keys0| == |regions0| && |keys| == |regions| && keys0 <= keys && Indexed(keys, regions)
    requires Partition(regions, tracked) && Ledger(keys0, regions0, keys, regions) && NothingLeft(regions)
    requires MoversOk(keys, regions, movers, pos) && LeaversOk(regions, leavers, pos)
    requires Accounted(keys, regions, movers, leavers, pos) && DoomedOk(keys, regions, doomed)
    ensures Mutating(keys0, regions0, keys, regions, tracked, movers, leavers, doomed, pos)
  {
  }

  /** Events were cleared at the start, so what the cleared map held is what the old map held. */
  lemma TickDone(keys0: seq<Key>, old0: seq<Region>, regions0: seq<Region>, keys: seq<Key>, regions: seq<Region>,
                 tracked: set<nat>, pos: map<nat, Pos>)
    requires Settled(keys0, regions0, keys, regions, tracked, [], pos) && |old0| == |regions0|
    requires forall i :: 0 <= i < |regions0| ==> regions0[i].entities == old0[i].entities
    requires pos.Keys <= tracked
    ensures |keys0| == |old0| && |keys| == |regions| && Ledger(keys0, old0, keys, regions)
    ensures Indexed(keys, regions) && Partition(regions, tracked)
    ensures tracked == pos.Keys && Near(keys, regions, pos)
    ensures forall i :: 0 <= i < |regions| ==> !regions[i].Removable()
  {
    hide NeedsSwitch;
    forall id | id in tracked
      ensures id in pos
    {
      assert InSome(regions, id);
      var i :| 0 <= i < |regions| && id in regions[i].entities;
      assert !IsLeaving([], id);
    }
    assert forall id :: !IsMoving([], id) && !IsLeaving([], id);
  }

  // ----- looking an entity up

  lemma Holds(keys: seq<Key>, regions: seq<Region>, tracked: set<nat>, id: nat, i: nat)
    requires Indexed(keys, regions) && Partition(regions, tracked) && i < |regions| && id in regions[i].entities
    ensures |keys| == |regions| && id in HeldBy(keys, regions, keys[i]) && id in tracked
  {
    FindDistinct(keys, i);
    assert InSome(regions, id);
  }

  /** Whoever need not switch is in the region of its position or in a neighbour of it. */
  lemma NearIsNeighbour(k: Key, pos: Pos)
    requires !NeedsSwitch(k, pos)
    ensures k == PosKey(pos) || exists d :: 0 <= d < 8 && k == PosKey(pos).Plus(Offset(d))
  {
    var key := PosKey(pos);
    if k != key {
      var dx, dy := k.x - key.x, k.y - key.y;
      assert 0 <= dx <= 1 && 0 <= dy <= 1;
      var d := if dx == 0 then 0 else if dy == 0 then 6 else 7;
      assert k == key.Plus(Offset(d));
    }
  }

  lemma NotNear(keys: seq<Key>, regions: seq<Region>, id: nat, pos: Pos)
    requires |keys| == |regions|
    requires forall i :: 0 <= i < |keys| && keys[i] == PosKey(pos) ==> id !in regions[i].entities
    requires forall e, i :: 0 <= e < 8 && 0 <= i < |keys| && keys[i] == PosKey(pos).Plus(Offset(e)) ==>
      id !in regions[i].entities
    ensures !IsNear(keys, regions, id, pos)
  {
    if IsNear(keys, regions, id, pos) {
      var i :| 0 <= i < |regions| && id in regions[i].entities && !NeedsSwitch(keys[i], pos);
      NearIsNeighbour(keys[i], pos);
    }
  }

  /** After a tick every entity is found without a scan, if asked for with the position
      the tick saw: from the region of that position or one of its neighbours. */
  lemma FoundNearby(keys: seq<Key>, regions: seq<Region>, tracked: set<nat>, pos: map<nat, Pos>, id: nat)
    requires |keys| == |regions| && Partition(regions, tracked) && Near(keys, regions, pos) && id in tracked
    ensures id in pos && IsNear(keys, regions, id, pos[id])
  {
    assert InSome(regions, id);
  }

  /** Everyone waiting so far comes from the first `i` regions. */
  ghost predicate UpTo(movers: seq<Mover>, leavers: seq<Leaver>, i: nat) {
    && (forall n :: 0 <= n < |movers| ==> movers[n].i < i)
    && (forall n :: 0 <= n < |leavers| ==> leavers[n].i < i)
  }

  ghost predicate AccountedUpTo(keys: seq<Key>, regions: seq<Region>, movers: seq<Mover>, leavers: seq<Leaver>,
                                pos: map<nat, Pos>, i: nat)
    requires |keys| == |regions|
  {
    forall k, id :: 0 <= k < i && k < |regions| && id in regions[k].entities ==>
      if id in pos then !NeedsSwitch(keys[k], pos[id]) || IsMoving(movers, id) else IsLeaving(leavers, id)
  }

  lemma AccountedAll(keys: seq<Key>, regions: seq<Region>, movers: seq<Mover>, leavers: seq<Leaver>, pos: map<nat, Pos>)
    requires |keys| == |regions| && AccountedUpTo(keys, regions, movers, leavers, pos, |regions|)
    ensures Accounted(keys, regions, movers, leavers, pos)
  {
  }

  lemma StillWaiting(m: seq<Mover>, m': seq<Mover>, l: seq<Leaver>, l': seq<Leaver>)
    requires m <= m' && l <= l'
    ensures forall id :: IsMoving(m, id) ==> IsMoving(m', id)
    ensures forall id :: IsLeaving(l, id) ==> IsLeaving(l', id)
  {
    forall id | IsMoving(m, id)
      ensures IsMoving(m', id)
    {
      var n :| 0 <= n < |m| && m[n].id == id;
      assert m'[n].id == id;
    }
    forall id | IsLeaving(l, id)
      ensures IsLeaving(l', id)
    {
      var n :| 0 <= n < |l| && l[n].id == id;
      assert l'[n].id == id;
    }
  }

  /** Of the region at `i`, the entities in `rest` are still to be looked at. */
  ghost predicate Scanning(keys: seq<Key>, regions: seq<Region>, m0: seq<Mover>, movers: seq<Mover>,
                           l0: seq<Leaver>, leavers: seq<Leaver>, pos: map<nat, Pos>, i: nat, rest: set<nat>)
  {
    && |keys| == |regions| && i < |regions| && rest <= regions[i].entities && Disjoint(regions)
    && MoversOk(keys, regions, movers, pos) && LeaversOk(regions, leavers, pos)
    && m0 <= movers && l0 <= leavers
    && UpTo(m0, l0, i) && AccountedUpTo(keys, regions, m0, l0, pos, i)
    && (forall n :: |m0| <= n < |movers| ==> movers[n].i == i && movers[n].id !in rest)
    && (forall n :: |l0| <= n < |leavers| ==> leavers[n].i == i && leavers[n].id !in rest)
    && forall id :: id in regions[i].entities && id !in rest ==>
         if id in pos then !NeedsSwitch(keys[i], pos[id]) || IsMoving(movers, id) else IsLeaving(leavers, id)
  }

  lemma ScanStart(keys: seq<Key>, regions: seq<Region>, tracked: set<nat>, movers: seq<Mover>, leavers: seq<Leaver>,
                  pos: map<nat, Pos>, i: nat)
    requires |keys| == |regions| && i < |regions| && Indexed(keys, regions) && Partition(regions, tracked)
    requires MoversOk(keys, regions, movers, pos) && LeaversOk(regions, leavers, pos)
    requires UpTo(movers, leavers, i) && AccountedUpTo(keys, regions, movers, leavers, pos, i)
    ensures Scanning(keys, regions, movers, movers, leavers, leavers, pos, i, regions[i].entities)
  {
  }

  /** Entity `id` is not listed before its region is scanned. */
  lemma Unlisted(keys: seq<Key>, regions: seq<Region>, m0: seq<Mover>, movers: seq<Mover>, l0: seq<Leaver>,
          leavers: seq<Leaver>,
                 pos: map<nat, Pos>, i: nat, rest: set<nat>, id: nat)
    requires Scanning(keys, regions, m0, movers, l0, leavers, pos, i, rest) && id in rest
    ensures !IsMoving(movers, id) && !IsLeaving(leavers, id)
  {
    hide NeedsSwitch;
    assert forall n :: 0 <= n < |m0| ==> m0[n] == movers[n];
    assert forall n :: 0 <= n < |l0| ==> l0[n] == leavers[n];
    forall n | 0 <= n < |movers|
      ensures movers[n].id != id
    {
      if movers[n].id == id {
        OneRegion(regions, movers[n].i, i, id);
        assert false;
      }
    }
    forall n | 0 <= n < |leavers|
      ensures leavers[n].id != id
    {
      if leavers[n].id == id {
        OneRegion(regions, leavers[n].i, i, id);
        assert false;
      }
    }
  }

  lemma PushMover(keys: seq<Key>, regions: seq<Region>, movers: seq<Mover>, m: Mover, pos: map<nat, Pos>)
    requires |keys| == |regions| && MoversOk(keys, regions, movers, pos) && !IsMoving(movers, m.id)
    requires m.i < |regions| && m.id in regions[m.i].entities
    requires m.id in pos && m.pos == pos[m.id] && NeedsSwitch(keys[m.i], m.pos)
    ensures MoversOk(keys, regions, movers + [m], pos)
    ensures forall id :: IsMoving(movers + [m], id) <==> IsMoving(movers, id) || id == m.id
  {
    hide NeedsSwitch;
    assert forall n :: 0 <= n < |movers| ==> (movers + [m])[n] == movers[n];
    assert (movers + [m])[|movers|] == m;
    StillWaiting(movers, movers + [m], [], []);
  }

  lemma PushLeaver(regions: seq<Region>, leavers: seq<Leaver>, l: Leaver, pos: map<nat, Pos>)
    requires LeaversOk(regions, leavers, pos) && !IsLeaving(leavers, l.id)
    requires l.i < |regions| && l.id in regions[l.i].entities && l.id !in pos
    ensures LeaversOk(regions, leavers + [l], pos)
    ensures forall id :: IsLeaving(leavers + [l], id) <==> IsLeaving(leavers, id) || id == l.id
  {
    assert forall n :: 0 <= n < |leavers| ==> (leavers + [l])[n] == leavers[n];
    assert (leavers + [l])[|leavers|] == l;
    StillWaiting([], [], leavers, leavers + [l]);
  }

  lemma ScanOne(keys: seq<Key>, regions: seq<Region>, m0: seq<Mover>, movers: seq<Mover>, movers': seq<Mover>,
                l0: seq<Leaver>, leavers: seq<Leaver>, leavers': seq<Leaver>,
                pos: map<nat, Pos>, i: nat, rest: set<nat>, id: nat)
    requires Scanning(keys, regions, m0, movers, l0, leavers, pos, i, rest) && id in rest
    requires |keys| == |regions| && i < |keys|
    requires movers' == if id in pos && NeedsSwitch(keys[i], pos[id]) then movers + [Mover(i, id, pos[id])] else movers
    requires leavers' == if id in pos then leavers else leavers + [Leaver(i, id)]
    ensures Scanning(keys, regions, m0, movers', l0, leavers', pos, i, rest - {id})
  {
    hide NeedsSwitch, MoversOk, LeaversOk, IsMoving, IsLeaving, Disjoint, UpTo, AccountedUpTo;
    Unlisted(keys, regions, m0, movers, l0, leavers, pos, i, rest, id);
    if id !in pos {
      PushLeaver(regions, leavers, Leaver(i, id), pos);
    } else if NeedsSwitch(keys[i], pos[id]) {
      PushMover(keys, regions, movers, Mover(i, id, pos[id]), pos);
    }
  }

  lemma ScanDone(keys: seq<Key>, regions: seq<Region>, m0: seq<Mover>, movers: seq<Mover>,
                 l0: seq<Leaver>, leavers: seq<Leaver>, pos: map<nat, Pos>, i: nat)
    requires Scanning(keys, regions, m0, movers, l0, leavers, pos, i, {})
    ensures |keys| == |regions| && MoversOk(keys, regions, movers, pos) && LeaversOk(regions, leavers, pos)
    ensures UpTo(movers, leavers, i + 1) && AccountedUpTo(keys, regions, movers, leavers, pos, i + 1)
  {
    hide NeedsSwitch;
    StillWaiting(m0, movers, l0, leavers);
    assert forall n :: 0 <= n < |m0| ==> m0[n] == movers[n];
    assert forall n :: 0 <= n < |l0| ==> l0[n] == leavers[n];
  }

  lemma LastMover(keys0: seq<Key>, regions0: seq<Region>, keys: seq<Key>, regions: seq<Region>, tracked: set<nat>,
                  movers: seq<Mover>, leavers: seq<Leaver>, doomed: seq<Key>, pos: map<nat, Pos>)
    requires Mutating(keys0, regions0, keys, regions, tracked, movers, leavers, doomed, pos) && movers != []
    ensures |keys0| == |regions0| && |keys| == |regions| && keys0 <= keys && Indexed(keys, regions)
    ensures Ledger(keys0, regions0, keys, regions)
    ensures var m := movers[|movers| - 1];
      && movers == movers[..|movers| - 1] + [m]
      && m.i < |regions| && m.id in regions[m.i].entities
      && m.id in pos && m.pos == pos[m.id] && NeedsSwitch(keys[m.i], m.pos)
      && NoLeft(regions, m.id) && Disjoint(regions)
  {
  }

  lemma MutatingDone(keys0: seq<Key>, regions0: seq<Region>, keys: seq<Key>, regions: seq<Region>,
                     tracked: set<nat>, doomed: seq<Key>, pos: map<nat, Pos>)
    requires Mutating(keys0, regions0, keys, regions, tracked, [], [], doomed, pos)
    ensures Settled(keys0, regions0, keys, regions, tracked, doomed, pos)
  {
    assert Distinct(keys);
    hide Ledger, Partition, Accounted, DoomedOk;
  }

  lemma TruthfulStart(keys: seq<Key>, regions: seq<Region>, tracked: set<nat>, pos: map<nat, Pos>)
    requires |keys| == |regions| && Partition(regions, tracked)
    requires forall i :: 0 <= i < |regions| ==> regions[i].events == []
    ensures Truthful(keys, regions, keys, regions, pos)
    ensures forall id :: id !in tracked ==> !InSome(regions, id)
  {
    hide Truth;
  }

  ghost predicate AllTracked(pos: map<nat, Pos>, tracked: set<nat>) {
    forall id :: id in pos ==> id in tracked
  }

  lemma TrackedKeys(pos: map<nat, Pos>, tracked: set<nat>)
    ensures AllTracked(pos, tracked) <==> pos.Keys <= tracked
  {
  }

  lemma StillTracked(pos: map<nat, Pos>, tracked: set<nat>, id: nat)
    requires AllTracked(pos, tracked) && id !in pos
    ensures AllTracked(pos, tracked - {id})
  {
  }

  lemma NextLeaver(keys0: seq<Key>, regions0: seq<Region>, keys: seq<Key>, regions: seq<Region>, tracked: set<nat>,
                   l: Leaver, leavers: seq<Leaver>, doomed: seq<Key>, pos: map<nat, Pos>)
    requires Mutating(keys0, regions0, keys, regions, tracked, [], [l] + leavers, doomed, pos)
    ensures |keys0| == |regions0| && |keys| == |regions| && Indexed(keys, regions)
    ensures Ledger(keys0, regions0, keys, regions)
    ensures l.i < |regions| && l.id in regions[l.i].entities && l.id !in pos && NoLeft(regions, l.id)
  {
    LeaveOnce(l, leavers, regions, pos);
    assert ([l] + leavers)[0] == l;
  }

  lemma MutatingLengths(keys0: seq<Key>, regions0: seq<Region>, keys: seq<Key>, regions: seq<Region>,
                        tracked: set<nat>, movers: seq<Mover>,
                        leavers: seq<Leaver>, doomed: seq<Key>, pos: map<nat, Pos>)
    requires Mutating(keys0, regions0, keys, regions, tracked, movers, leavers, doomed, pos)
    ensures |keys0| == |regions0| && |keys| == |regions|
  {
  }

  lemma RemoveOne(keys: seq<Key>, regions: seq<Region>, i: nat, id: nat, to: Option<Key>)
    requires Indexed(keys, regions) && i < |regions| && id in regions[i].entities
    ensures var mid := regions[i := regions[i].Remove(id, to)];
      |mid| == |regions| && Indexed(keys, mid) && SameSlots(regions, mid) && Departed(regions, mid, i, id)
  {
    var mid := regions[i := regions[i].Remove(id, to)];
    IndexedSameSlots(keys, regions, mid);
  }

  class RegionMap {
    var keys: seq<Key>
    var regions: seq<Region>
    var tracked: set<nat>
    var movers: seq<Mover>
    var leavers: seq<Leaver>
    var ticks: nat

    ghost predicate Good()
      reads this
    {
      Indexed(keys, regions) && Partition(regions, tracked)
    }

    lemma Parts()
      requires Good()
      ensures |keys| == |regions| && Indexed(keys, regions) && Partition(regions, tracked)
    {
    }

    lemma Assemble()
      requires Indexed(keys, regions) && Partition(regions, tracked)
      ensures Good()
    {
    }

    constructor ()
      ensures Good() && keys == [] && tracked == {} && movers == [] && leavers == []
    {
      keys, regions, tracked, movers, leavers, ticks := [], [], {}, [], [], 0;
    }

    /** `add_entity`: into the region of its position, inserted if there is none. An
        entity entering a new region is logged without where it came from. */
    method AddEntity(id: nat, pos: Pos, from: Option<Key>) returns (ghost j: nat)
      requires Indexed(keys, regions)
      modifies this
      ensures Indexed(keys, regions)
      ensures Added(old(keys), old(regions), keys, regions, id, j) && keys[j] == PosKey(pos)
      ensures regions[j].events ==
        (if j < |old(keys)| then old(regions)[j].events else []) +
        [Entered(id, if j < |old(keys)| then from else None)]
      ensures movers == old(movers) && leavers == old(leavers) && tracked == old(tracked) && ticks == old(ticks)
    {
      var key := PosKey(pos);
      var found := Find(keys, key);
      if found.Some? {
        j := found.value;
        regions := regions[found.value := regions[found.value].Add(id, from)];
        assert SameSlots(old(regions), regions);
        IndexedSameSlots(keys, old(regions), regions);
        assert regions[j].events == old(regions)[j].events + [Entered(id, from)];
        return;
      }
      var index;
      keys, regions, index := Insert(keys, regions, key);
      ghost var inserted := regions;
      j := index;
      regions := regions[index := regions[index].Add(id, None)];
      assert SameSlots(inserted, regions);
      IndexedSameSlots(keys, inserted, regions);
      assert regions[j].events == [] + [Entered(id, None)];
    }

    /** The first loop of `tick`. */
    method ClearEvents()
      requires Indexed(keys, regions)
      modifies this`regions
      ensures Indexed(keys, regions) && |regions| == |old(regions)|
      ensures forall i :: 0 <= i < |regions| ==>
        regions[i].entities == old(regions)[i].entities && regions[i].events == []
    {
      ghost var before := regions;
      for n := 0 to |regions|
        invariant |regions| == |before| && SameSlots(before, regions)
        invariant forall i :: 0 <= i < |regions| ==> regions[i].entities == before[i].entities
        invariant forall i :: 0 <= i < n ==> regions[i].events == []
      {
        regions := regions[n := regions[n].(events := [])];
      }
      IndexedSameSlots(keys, before, regions);
    }

    /** A new entity enters the region of its position. */
    method Track(id: nat, pos: Pos, ghost keys0: seq<Key>, ghost regions0: seq<Region>, ghost all: map<nat, Pos>)
      requires Good() && id !in tracked && |keys| == |regions| && NothingLeft(regions)
      requires |keys0| == |regions0| && keys0 <= keys && Ledger(keys0, regions0, keys, regions)
      requires id in all && all[id] == pos && !InSome(regions0, id) && Truthful(keys0, regions0, keys, regions, all)
      modifies this
      ensures Good() && tracked == old(tracked) + {id} && |keys| == |regions| && NothingLeft(regions)
      ensures keys0 <= keys && Ledger(keys0, regions0, keys, regions) && Truthful(keys0, regions0, keys, regions, all)
      ensures movers == old(movers) && leavers == old(leavers) && ticks == old(ticks)
    {
      hide Ledger, Partition, Indexed, LeftIds, EnteredIds, Added, Find, HeldBy, Truthful, InSome;
      tracked := tracked + {id};
      ghost var j := AddEntity(id, pos, None);
      AddedKeys(old(keys), old(regions), keys, regions, id, j);
      AddedPartition(old(keys), old(regions), keys, regions, id, j, old(tracked));
      AddedNoLeft(old(keys), old(regions), keys, regions, id, j);
      AddedLedger(keys0, regions0, old(keys), old(regions), keys, regions, id, j);
      NewNotEntered(keys0, regions0, old(keys), old(regions), old(tracked), id, None);
      AddedTruthful(keys0, regions0, old(keys), old(regions), keys, regions, id, j, Entered(id, None), all);
    }

    /** Entities with a position that are not tracked yet, in any order. */
    method TrackNew(pos: map<nat, Pos>)
      requires Good()
      requires forall i :: 0 <= i < |regions| ==> regions[i].events == []
      modifies this
      ensures Good() && tracked == old(tracked) + pos.Keys && |keys| == |regions| && NothingLeft(regions)
      ensures |old(keys)| == |old(regions)| && old(keys) <= keys && Ledger(old(keys), old(regions), keys, regions)
      ensures Truthful(old(keys), old(regions), keys, regions, pos)
      ensures movers == old(movers) && leavers == old(leavers) && ticks == old(ticks)
    {
      Parts();
      hide *;
      LedgerStart(keys, regions);
      TruthfulStart(keys, regions, tracked, pos);
      var todo := pos.Keys - tracked;
      ghost var keys0, regions0 := keys, regions;
      while todo != {}
        invariant Good() && |keys| == |regions| && NothingLeft(regions)
        invariant todo == pos.Keys - tracked && old(tracked) <= tracked <= old(tracked) + pos.Keys
        invariant keys0 <= keys && Ledger(keys0, regions0, keys, regions)
        invariant Truthful(keys0, regions0, keys, regions, pos)
        invariant movers == old(movers) && leavers == old(leavers) && ticks == old(ticks)
        decreases todo
      {
        var id :| id in todo;
        todo := todo - {id};
        assert id !in old(tracked);
        Track(id, pos[id], keys0, regions0, pos);
      }
    }

    /** The check loop of `tick`: who is to be switched or removed, and which regions
        are removable now. */
    method Scan(pos: map<nat, Pos>) returns (doomed: seq<Key>)
      requires Good() && movers == [] && leavers == [] && |keys| == |regions|
      modifies this`movers, this`leavers
      ensures MoversOk(keys, regions, movers, pos) && LeaversOk(regions, leavers, pos)
      ensures Accounted(keys, regions, movers, leavers, pos) && DoomedOk(keys, regions, doomed)
    {
      doomed := [];
      for i := 0 to |regions|
        invariant MoversOk(keys, regions, movers, pos) && LeaversOk(regions, leavers, pos)
        invariant UpTo(movers, leavers, i)
        invariant AccountedUpTo(keys, regions, movers, leavers, pos, i)
        invariant Distinct(doomed) && forall n :: 0 <= n < |doomed| ==> doomed[n] in keys[..i]
        invariant forall k :: 0 <= k < i && regions[k].Removable() ==> keys[k] in doomed
      {
        ScanRegion(i, pos);
        if regions[i].Removable() {
          doomed := doomed + [keys[i]];
        }
      }
      AccountedAll(keys, regions, movers, leavers, pos);
    }

    method ScanRegion(i: nat, pos: map<nat, Pos>)
      requires Good() && |keys| == |regions| && i < |regions|
      requires MoversOk(keys, regions, movers, pos) && LeaversOk(regions, leavers, pos)
      requires UpTo(movers, leavers, i) && AccountedUpTo(keys, regions, movers, leavers, pos, i)
      modifies this`movers, this`leavers
      ensures MoversOk(keys, regions, movers, pos) && LeaversOk(regions, leavers, pos)
      ensures UpTo(movers, leavers, i + 1) && AccountedUpTo(keys, regions, movers, leavers, pos, i + 1)
    {
      ghost var m0, l0 := movers, leavers;
      var rest := regions[i].entities;
      ScanStart(keys, regions, tracked, movers, leavers, pos, i);
      hide *;
      while rest != {}
        invariant Scanning(keys, regions, m0, movers, l0, leavers, pos, i, rest)
        decreases rest
      {
        var id :| id in rest;
        ghost var m, l := movers, leavers;
        if id in pos {
          var p := pos[id];
          if NeedsSwitch(keys[i], p) {
            movers := movers + [Mover(i, id, p)];
          }
        } else {
          leavers := leavers + [Leaver(i, id)];
        }
        ScanOne(keys, regions, m0, m, movers, l0, l, leavers, pos, i, rest, id);
        rest := rest - {id};
      }
      ScanDone(keys, regions, m0, movers, l0, leavers, pos, i);
    }

    /** One turn of the loop that switches entities. */
    method SwitchLast(ghost keys0: seq<Key>, ghost regions0: seq<Region>, ghost doomed: seq<Key>,
            ghost pos: map<nat, Pos>)
      requires movers != [] && Mutating(keys0, regions0, keys, regions, tracked, movers, leavers, doomed, pos)
      requires Truthful(keys0, regions0, keys, regions, pos)
      modifies this
      ensures |keys0| == |regions0| && |keys| == |regions| && Truthful(keys0, regions0, keys, regions, pos)
      ensures Mutating(keys0, regions0, keys, regions, tracked, movers, leavers, doomed, pos)
      ensures movers == old(movers[..|movers| - 1]) && leavers == old(leavers) &&
        tracked == old(tracked) && ticks == old(ticks)
    {
      hide *;
      LastMover(keys0, regions0, keys, regions, tracked, movers, leavers, doomed, pos);
      var m := movers[|movers| - 1];
      movers := movers[..|movers| - 1];
      var prevKey := keys[m.i];
      RemoveOne(keys, regions, m.i, m.id, Some(PosKey(m.pos)));
      regions := regions[m.i := regions[m.i].Remove(m.id, Some(PosKey(m.pos)))];
      ghost var mid := regions;
      ghost var j := AddEntity(m.id, m.pos, Some(prevKey));
      SwitchKeeps(keys0, regions0, old(keys), old(regions), tracked, movers, m, leavers, doomed, pos, mid, keys,
        regions, j);
      MutatingLengths(keys0, regions0, keys, regions, tracked, movers, leavers, doomed, pos);
      SwitchTruthful(keys0, regions0, old(keys), old(regions), mid, keys, regions, m.i, m.id, pos, j);
    }

    /** That loop. */
    method SwitchAll(ghost keys0: seq<Key>, ghost regions0: seq<Region>, ghost doomed: seq<Key>,
            ghost pos: map<nat, Pos>)
      requires Mutating(keys0, regions0, keys, regions, tracked, movers, leavers, doomed, pos)
      requires |keys0| == |regions0| && |keys| == |regions| && Truthful(keys0, regions0, keys, regions, pos)
      modifies this
      ensures Mutating(keys0, regions0, keys, regions, tracked, [], leavers, doomed, pos) && movers == []
      ensures |keys| == |regions| && Truthful(keys0, regions0, keys, regions, pos)
      ensures leavers == old(leavers) && tracked == old(tracked) && ticks == old(ticks)
    {
      hide *;
      while movers != []
        invariant Mutating(keys0, regions0, keys, regions, tracked, movers, leavers, doomed, pos)
        invariant |keys| == |regions| && Truthful(keys0, regions0, keys, regions, pos)
        invariant leavers == old(leavers) && tracked == old(tracked) && ticks == old(ticks)
        decreases |movers|
      {
        SwitchLast(keys0, regions0, doomed, pos);
      }
    }

    method DropLeaver(l: Leaver, ghost rest: seq<Leaver>, ghost keys0: seq<Key>, ghost regions0: seq<Region>,
                      ghost doomed: seq<Key>, ghost pos: map<nat, Pos>)
      requires Mutating(keys0, regions0, keys, regions, tracked, [], [l] + rest, doomed, pos)
      requires |keys0| == |regions0| && |keys| == |regions| && Truthful(keys0, regions0, keys, regions, pos)
      requires AllTracked(pos, tracked)
      modifies this`regions, this`tracked
      ensures Mutating(keys0, regions0, keys, regions, tracked, [], rest, doomed, pos)
      ensures |keys| == |regions| && Truthful(keys0, regions0, keys, regions, pos)
      ensures tracked == old(tracked) - {l.id} && AllTracked(pos, tracked)
    {
      hide *;
      NextLeaver(keys0, regions0, keys, regions, tracked, l, rest, doomed, pos);
      RemoveOne(keys, regions, l.i, l.id, None);
      regions := regions[l.i := regions[l.i].Remove(l.id, None)];
      LeaveKeeps(keys0, regions0, keys, old(regions), tracked, l, rest, doomed, pos, regions);
      LeaveTruthful(keys0, regions0, keys, old(regions), l.i, l.id, pos);
      StillTracked(pos, tracked, l.id);
      tracked := tracked - {l.id};
    }

    /** Take away the entities without a position. */
    method RemoveLeavers(ghost keys0: seq<Key>, ghost regions0: seq<Region>, ghost doomed: seq<Key>,
            ghost pos: map<nat, Pos>)
      requires Mutating(keys0, regions0, keys, regions, tracked, [], leavers, doomed, pos) && movers == []
      requires Truthful(keys0, regions0, keys, regions, pos) && AllTracked(pos, tracked)
      modifies this`regions, this`tracked, this`leavers
      ensures |keys0| == |regions0| && |keys| == |regions| && Truthful(keys0, regions0, keys, regions, pos)
      ensures Mutating(keys0, regions0, keys, regions, tracked, [], [], doomed, pos) && leavers == []
      ensures AllTracked(pos, tracked)
    {
      MutatingLengths(keys0, regions0, keys, regions, tracked, [], leavers, doomed, pos);
      hide *;
      var todo := leavers;
      leavers := [];
      while todo != []
        invariant |keys0| == |regions0| && |keys| == |regions|
        invariant Mutating(keys0, regions0, keys, regions, tracked, [], todo, doomed, pos)
        invariant Truthful(keys0, regions0, keys, regions, pos) && AllTracked(pos, tracked) && leavers == []
        decreases |todo|
      {
        assert todo == [todo[0]] + todo[1..];
        DropLeaver(todo[0], todo[1..], keys0, regions0, doomed, pos);
        todo := todo[1..];
      }
    }

    /** `remove`: by key, if it is stored. */
    method Remove(key: Key)
      requires Indexed(keys, regions)
      requires Find(keys, key).Some? ==> |keys| == |regions| && regions[Find(keys, key).value].entities == {}
      modifies this`keys, this`regions
      ensures Indexed(keys, regions)
      ensures Find(old(keys), key).None? ==> keys == old(keys) && regions == old(regions)
      ensures Find(old(keys), key).Some? ==> var i := Find(old(keys), key).value;
        && |old(keys)| == |old(regions)|
        && keys == SwapRemove(old(keys), i) && SameContents(regions, SwapRemove(old(regions), i))
    {
      var found := Find(keys, key);
      if found.Some? {
        keys, regions := RemoveIndex(keys, regions, found.value);
      }
    }

    /** The last loop of `tick`: drop the listed regions that are still removable. */
    method Prune(doomed: seq<Key>, ghost keys0: seq<Key>, ghost regions0: seq<Region>, ghost pos: map<nat, Pos>)
      requires Settled(keys0, regions0, keys, regions, tracked, doomed, pos)
      requires Truthful(keys0, regions0, keys, regions, pos)
      modifies this`keys, this`regions
      ensures Settled(keys0, regions0, keys, regions, tracked, [], pos) && |keys| == |regions|
      ensures Truthful(keys0, regions0, keys, regions, pos)
    {
      for n := 0 to |doomed|
        invariant Settled(keys0, regions0, keys, regions, tracked, doomed[n..], pos)
        invariant Truthful(keys0, regions0, keys, regions, pos)
      {
        var key := doomed[n];
        assert doomed[n..] == [key] + doomed[n + 1..];
        hide Settled, SwapRemove;
        DoomedStored(keys0, regions0, keys, regions, tracked, key, doomed[n + 1..], pos);
        var i := Find(keys, key).value;
        if regions[i].Removable() {
          ghost var k, r := keys, regions;
          Remove(key);
          PruneKeeps(keys0, regions0, k, r, tracked, key, doomed[n + 1..], pos, i, keys, regions);
          PruneTruthful(keys0, regions0, k, r, i, keys, regions, pos);
        } else {
          PruneSkips(keys0, regions0, keys, regions, tracked, key, doomed[n + 1..], pos, i);
        }
      }
      assert doomed[|doomed|..] == [];
    }

    /** The loops of `tick` after the check. */
    method CarryOut(doomed: seq<Key>, ghost keys0: seq<Key>, ghost regions0: seq<Region>, ghost pos: map<nat, Pos>)
      requires Mutating(keys0, regions0, keys, regions, tracked, movers, leavers, doomed, pos)
      requires |keys0| == |regions0| && |keys| == |regions| && Truthful(keys0, regions0, keys, regions, pos)
      requires AllTracked(pos, tracked)
      modifies this
      ensures |keys| == |regions| && Settled(keys0, regions0, keys, regions, tracked, [], pos)
      ensures Truthful(keys0, regions0, keys, regions, pos) && AllTracked(pos, tracked)
      ensures movers == [] && leavers == [] && ticks == old(ticks)
    {
      hide *;
      SwitchAll(keys0, regions0, doomed, pos);
      RemoveLeavers(keys0, regions0, doomed, pos);
      MutatingDone(keys0, regions0, keys, regions, tracked, doomed, pos);
      Prune(doomed, keys0, regions0, pos);
    }

    /** `RegionMap::tick`. */
    method Tick(pos: map<nat, Pos>)
      requires Good() && movers == [] && leavers == []
      modifies this
      ensures Good() && movers == [] && leavers == [] && ticks == old(ticks) + 1
      ensures |old(keys)| == |old(regions)| && |keys| == |regions|
      // the tracked entities are those with a position
      ensures tracked == pos.Keys
      // this tick's events account for every change, are true, and are logged once
      ensures Ledger(old(keys), old(regions), keys, regions)
      ensures Truthful(old(keys), old(regions), keys, regions, pos)
      // every entity is in the region of its position or within the tether of its corner
      ensures Near(keys, regions, pos) && NearInBlocks(keys, regions, pos)
      // no region without entities and events is left
      ensures forall i :: 0 <= i < |regions| ==> !regions[i].Removable()
    {
      Parts();
      hide *;
      ticks := ticks + 1;
      ghost var keys0 := keys;
      ClearEvents();
      ClearedPartition(old(regions), regions, tracked);
      Assemble();
      ghost var regions0 := regions;
      TrackNew(pos);
      var doomed := Scan(pos);
      Parts();
      MutatingStart(keys0, regions0, keys, regions, tracked, movers, leavers, doomed, pos);
      TrackedKeys(pos, tracked);
      CarryOut(doomed, keys0, regions0, pos);
      TrackedKeys(pos, tracked);
      TickDone(old(keys), old(regions), regions0, keys, regions, tracked, pos);
      ClearedTruthful(old(keys), old(regions), regions0, keys, regions, pos);
      NearIsInBlocks(keys, regions, pos);
      Assemble();
    }

    /** `find_region`; `scanned` tells whether the scan over all regions was needed. */
    method FindRegion(id: nat, pos: Pos) returns (found: Option<Key>, ghost scanned: bool)
      requires Good()
      ensures |keys| == |regions|
      ensures found.Some? ==> id in HeldBy(keys, regions, found.value)
      ensures found.None? <==> id !in tracked
      ensures IsNear(keys, regions, id, pos) ==> !scanned
    {
      var key := PosKey(pos);
      scanned := false;
      var j := Find(keys, key);
      if j.Some? {
        if id in regions[j.value].entities {
          Holds(keys, regions, tracked, id, j.value);
          return Some(key), false;
        }
        var slots := regions[j.value].neighbors;
        for d := 0 to 8
          invariant forall e, i :: 0 <= e < d && 0 <= i < |keys| && keys[i] == key.Plus(Offset(e)) ==>
            id !in regions[i].entities
        {
          SlotNames(keys, regions, j.value, d);
          if slots[d].Some? {
            var i := slots[d].value;
            if id in regions[i].entities {
              Holds(keys, regions, tracked, id, i);
              return Some(keys[i]), false;
            }
          }
        }
      } else {
        for d := 0 to 8
          invariant forall e, i :: 0 <= e < d && 0 <= i < |keys| && keys[i] == key.Plus(Offset(e)) ==>
            id !in regions[i].entities
        {
          var i := Find(keys, key.Plus(Offset(d)));
          if i.Some? && id in regions[i.value].entities {
            Holds(keys, regions, tracked, id, i.value);
            return Some(key.Plus(Offset(d))), false;
          }
        }
      }
      scanned := true;
      NotNear(keys, regions, id, pos);
      for i := 0 to |regions|
        invariant forall k :: 0 <= k < i ==> id !in regions[k].entities
      {
        if id in regions[i].entities {
          Holds(keys, regions, tracked, id, i);
          return Some(keys[i]), true;
        }
      }
      return None, true;
    }
  }

  lemma LedgerStart(keys: seq<Key>, regions: seq<Region>)
    requires Indexed(keys, regions)
    requires forall i :: 0 <= i < |regions| ==> regions[i].events == []
    ensures |keys| == |regions| && Ledger(keys, regions, keys, regions) && NothingLeft(regions)
  {
    forall i | 0 <= i < |keys|
      ensures HeldBy(keys, regions, keys[i]) == regions[i].entities
    {
      FindDistinct(keys, i);
    }
  }

  /** Entering leaves the departures alone. */
  lemma AddedNoLeft(keys: seq<Key>, regions: seq<Region>, keys': seq<Key>, regions': seq<Region>, id: nat, j: nat)
    requires Added(keys, regions, keys', regions', id, j)
    ensures forall i :: 0 <= i < |regions'| ==>
      LeftIds(regions'[i].events) == if i < |regions| then LeftIds(regions[i].events) else {}
  {
    var events := if j < |keys| then regions[j].events else [];
    var from :| regions'[j].events == events + [Entered(id, from)];
    EventsAppend(events, Entered(id, from));
  }
}
