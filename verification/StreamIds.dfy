/** The two ends of a connection never give the same id to two streams. */
module StreamIds {
  import opened Frames
  import opened Prios
  import opened Filling
  import opened Participants
  import opened Closing
  import Handshakes

  /** The ids announced on the wire, in order. */
  function Announced(wire: seq<TaggedFrame>): seq<nat> {
    if wire == [] then []
    else
      var n := |wire| - 1;
      Announced(wire[..n]) + (if wire[n].1.OpenStream? then [wire[n].1.sid] else [])
  }

  function Opens(moves: seq<Move>): nat {
    if moves == [] then 0 else (if moves[0].Open? then 1 else 0) + Opens(moves[1..])
  }

  lemma {:induction false} AnnouncedConcat(a: seq<TaggedFrame>, b: seq<TaggedFrame>)
    ensures Announced(a + b) == Announced(a) + Announced(b)
    decreases |b|
  {
    if b == [] {
      assert a + b == a;
    } else {
      var n := |b| - 1;
      assert (a + b)[..|a + b| - 1] == a + b[..n];
      AnnouncedConcat(a, b[..n]);
    }
  }

  lemma {:induction false} NoneAnnounced(wire: seq<TaggedFrame>)
    requires forall i :: 0 <= i < |wire| ==> !wire[i].1.OpenStream?
    ensures Announced(wire) == []
  {
    if wire != [] {
      NoneAnnounced(wire[..|wire| - 1]);
    }
  }

  lemma AnnouncedOne(wire: seq<TaggedFrame>, f: TaggedFrame)
    ensures Announced(wire + [f]) == Announced(wire) + if f.1.OpenStream? then [f.1.sid] else []
  {
    assert (wire + [f])[..|wire|] == wire;
  }

  /** The ids from `offset` on have been given to streams one after the other, each announced
      with its priority; every other stream is one of the peer's. */
  ghost predicate Numbered(s: System, offset: nat, prioOf: nat -> nat, peer: set<nat>) {
    && offset <= s.nextSid
    && |Announced(s.wire)| == s.nextSid - offset
    && (forall k :: 0 <= k < |Announced(s.wire)| ==> Announced(s.wire)[k] == offset + k)
    && (forall i :: 0 <= i < |s.wire| && s.wire[i].1.OpenStream? ==> s.wire[i].1.prio == prioOf(s.wire[i].1.sid))
    && (forall sid :: sid in s.handles ==>
          sid in peer || offset <= sid < s.nextSid || (sid == s.nextSid && s.shutdownMgr.Finished?))
  }

  lemma StepNumbered(s: System, m: Move, offset: nat, prioOf: nat -> nat, peer: set<nat>)
    requires Inv(s) && Can(s, m, prioOf, peer) && Numbered(s, offset, prioOf, peer)
    ensures Numbered(Do(s, m, prioOf, peer), offset, prioOf, peer)
    ensures Do(s, m, prioOf, peer).nextSid <= s.nextSid + Opens([m])
  {
    assert Opens([m]) == if m.Open? then 1 else 0 by { assert |[m][1..]| == 0; }
    if m.Tick? {
      TickNumbered(s, offset, prioOf, peer);
      hide Inv, Can, Numbered, DoTick;
    } else {
      OtherNumbered(s, m, offset, prioOf, peer);
      hide Inv, Can, Do, Numbered;
    }
  }

  lemma TickNumbered(s: System, offset: nat, prioOf: nat -> nat, peer: set<nat>)
    requires Ok(s) && Numbered(s, offset, prioOf, peer)
    ensures Numbered(DoTick(s), offset, prioOf, peer) && DoTick(s).nextSid == s.nextSid
  {
    FillTags(Taken(s).state, s.framesPerTick);
    AnnouncedConcat(s.wire, Filled(s).frames);
    NoneAnnounced(Filled(s).frames);
    hide Valid, Announced;
  }

  lemma OtherNumbered(s: System, m: Move, offset: nat, prioOf: nat -> nat, peer: set<nat>)
    requires HandlesOk(s) && PhasesOk(s) && Can(s, m, prioOf, peer) && Numbered(s, offset, prioOf, peer) && !m.Tick?
    ensures Numbered(Do(s, m, prioOf, peer), offset, prioOf, peer)
    ensures Do(s, m, prioOf, peer).nextSid <= s.nextSid + if m.Open? then 1 else 0
  {
    hide Ok, Announced;
    if m.Open? {
      AnnouncedOne(s.wire, (s.nextSid, OpenStream(s.nextSid, prioOf(s.nextSid), 0)));
    } else if m.FinishClose? {
      AnnouncedOne(s.wire, (s.closeMgr.sid, CloseStream(s.closeMgr.sid)));
    } else if m.ShutdownFlushed? {
      AnnouncedOne(s.wire, (0, Shutdown));
    }
  }

  lemma {:induction false} RunNumbered(s: System, moves: seq<Move>, offset: nat, prioOf: nat -> nat, peer: set<nat>)
    requires Inv(s) && Legal(s, moves, prioOf, peer) && Numbered(s, offset, prioOf, peer)
    ensures Numbered(After(s, moves, prioOf, peer), offset, prioOf, peer)
    ensures After(s, moves, prioOf, peer).nextSid <= s.nextSid + Opens(moves)
    decreases |moves|
  {
    hide Inv, Can, Do, Orderly, Numbered;
    if moves != [] {
      KeepInv(s, moves[0], prioOf, peer);
      StepNumbered(s, moves[0], offset, prioOf, peer);
      assert Opens([moves[0]]) + Opens(moves[1..]) == Opens(moves) by { assert |[moves[0]][1..]| == 0; }
      RunNumbered(Do(s, moves[0], prioOf, peer), moves[1..], offset, prioOf, peer);
    }
  }

  /** What the streams of an end that opens `Opens(moves)` of them are called. */
  lemma LocalIds(offset: nat, n: nat, moves: seq<Move>, prioOf: nat -> nat, peer: set<nat>)
    requires Legal(Start(offset, n), moves, prioOf, peer)
    ensures Numbered(After(Start(offset, n), moves, prioOf, peer), offset, prioOf, peer)
    ensures After(Start(offset, n), moves, prioOf, peer).nextSid <= offset + Opens(moves)
  {
    StartInv(offset, n);
    RunNumbered(Start(offset, n), moves, offset, prioOf, peer);
  }

  /** Both ends of a handshake are done. */
  ghost predicate Agreed(w: Handshakes.World, hs: seq<Handshakes.Move>, t: Handshakes.World) {
    && Handshakes.Start(w) && Handshakes.Matching(w) && Handshakes.Reaches(w, hs, t)
    && t.a.pc.Ok() && t.b.pc.Ok()
  }

  /** Each end may open fewer than 2^63 - 1 streams: whatever either does, the ids announced at
      the two ends differ and are 64-bit numbers. */
  lemma HalvesDisjoint(w: Handshakes.World, hs: seq<Handshakes.Move>, t: Handshakes.World, n: nat,
                       movesA: seq<Move>, prioA: nat -> nat, peerA: set<nat>,
                       movesB: seq<Move>, prioB: nat -> nat, peerB: set<nat>)
    requires Agreed(w, hs, t)
    requires Legal(Start(t.a.pc.offset, n), movesA, prioA, peerA) && Opens(movesA) < 0x7FFF_FFFF_FFFF_FFFF
    requires Legal(Start(t.b.pc.offset, n), movesB, prioB, peerB) && Opens(movesB) < 0x7FFF_FFFF_FFFF_FFFF
    ensures var a := Announced(After(Start(t.a.pc.offset, n), movesA, prioA, peerA).wire);
      var b := Announced(After(Start(t.b.pc.offset, n), movesB, prioB, peerB).wire);
      && (forall i, j :: 0 <= i < |a| && 0 <= j < |b| ==> a[i] != b[j])
      && (forall i :: 0 <= i < |a| ==> a[i] < 0x1_0000_0000_0000_0000)
      && (forall j :: 0 <= j < |b| ==> b[j] < 0x1_0000_0000_0000_0000)
  {
    Handshakes.HandshakeAgreement(w, hs, t);
    LocalIds(t.a.pc.offset, n, movesA, prioA, peerA);
    LocalIds(t.b.pc.offset, n, movesB, prioB, peerB);
    hide Announced, Legal, After, Opens;
  }

  /** So the next id is always free: with a peer that announces no other ids than it may, the
      conditions on `nextSid` in `Can` never keep a stream from being opened. */
  lemma NextIdIsFree(w: Handshakes.World, hs: seq<Handshakes.Move>, t: Handshakes.World, first: bool, n: nat,
                     moves: seq<Move>, prioOf: nat -> nat, peer: set<nat>)
    requires Agreed(w, hs, t)
    requires var own := if first then t.a.pc.offset else t.b.pc.offset;
      var other := if first then t.b.pc.offset else t.a.pc.offset;
      && Legal(Start(own, n), moves, prioOf, peer) && Opens(moves) < 0x7FFF_FFFF_FFFF_FFFF
      && forall sid :: sid in peer ==> other <= sid < other + 0x7FFF_FFFF_FFFF_FFFF
    ensures var s := After(Start(if first then t.a.pc.offset else t.b.pc.offset, n), moves, prioOf, peer);
      !s.shutdownMgr.Finished? ==>
        && s.nextSid !in peer && s.nextSid !in s.handles
        && (Can(s, Open, prioOf, peer) <==> !s.disconnected && prioOf(s.nextSid) < PRIO_MAX)
  {
    var own := if first then t.a.pc.offset else t.b.pc.offset;
    Handshakes.HandshakeAgreement(w, hs, t);
    LocalIds(own, n, moves, prioOf, peer);
    StartInv(own, n);
    RunInv(Start(own, n), moves, prioOf, peer);
    hide Announced, Legal, After, Opens, HandlesOk, IdsOk, PhasesOk, RequestsOk, WireOk;
  }
}
