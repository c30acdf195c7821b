/** Whole runs of the participant protocol: the order of what is sent, and that the
    peer holds every accepted message of a stream when it handles its `CloseStream`. */
module Closing {
  import opened Frames
  import opened Prios
  import opened Scheduling
  import opened Flushing
  import opened Receiving
  import opened Delivering
  import opened Filling
  import opened Participants

  // ----- runs

  /** A run from `s`: every move can be made, and none takes a leftover stream down during a
      send of a non-empty message on it. */
  ghost predicate Legal(s: System, moves: seq<Move>, prioOf: nat -> nat, peer: set<nat>)
    decreases |moves|
  {
    moves == [] ||
    (Can(s, moves[0], prioOf, peer) && Orderly(s, moves[0]) &&
     Legal(Do(s, moves[0], prioOf, peer), moves[1..], prioOf, peer))
  }

  ghost function After(s: System, moves: seq<Move>, prioOf: nat -> nat, peer: set<nat>): System
    requires Legal(s, moves, prioOf, peer)
    decreases |moves|
  {
    if moves == [] then s else After(Do(s, moves[0], prioOf, peer), moves[1..], prioOf, peer)
  }

  lemma StartInv(offset: nat, n: nat)
    ensures Inv(Start(offset, n))
  {
    InitialValid();
  }

  lemma {:induction false} RunInv(s: System, moves: seq<Move>, prioOf: nat -> nat, peer: set<nat>)
    requires Inv(s) && Legal(s, moves, prioOf, peer)
    ensures Inv(After(s, moves, prioOf, peer))
    decreases |moves|
  {
    hide Inv, Can, Do, Orderly;
    if moves != [] {
      KeepInv(s, moves[0], prioOf, peer);
      RunInv(Do(s, moves[0], prioOf, peer), moves[1..], prioOf, peer);
    }
  }

  /** In every run nothing of a stream is sent after its `CloseStream`, by which time
      nothing of it is left to send; `Shutdown` is the last frame of all, and when it is
      due every stream has been closed but those opened after the leftovers were listed. */
  lemma CloseAndShutdownOrder(offset: nat, n: nat, moves: seq<Move>, prioOf: nat -> nat, peer: set<nat>)
    requires Legal(Start(offset, n), moves, prioOf, peer)
    ensures var s := After(Start(offset, n), moves, prioOf, peer);
      && InOrder(s.wire)
      && (forall sid: nat :: ClosedOn(s.wire, sid) ==> Quiet(s, sid))
      && (s.shutdownMgr.Finished? ==>
            && s.streams <= s.late && s.sendMgr.Stopped? && (!s.disconnected ==> ShutdownSent(s.wire))
            && forall sid :: sid in s.handles && sid !in s.late ==> s.handles[sid].closed)
  {
    StartInv(offset, n);
    RunInv(Start(offset, n), moves, prioOf, peer);
    var s := After(Start(offset, n), moves, prioOf, peer);
    forall sid: nat | ClosedOn(s.wire, sid)
      ensures Quiet(s, sid)
    {
      var i :| 0 <= i < |s.wire| && s.wire[i].1 == CloseStream(sid);
    }
  }

  // ----- what the peer holds

  /** The peer after the first `k` frames; its own streams are open from the start. */
  ghost function Peer(s: System, peer: set<nat>, k: nat): Receiver
    requires AllForParticipant(s.wire) && k <= |s.wire|
  {
    assert AllForParticipant(s.wire[..k]);
    HandleAll(Fresh(peer), s.wire[..k])
  }

  /** At the `CloseStream` at position `k` the peer has every accepted message of the stream. */
  ghost predicate CompleteAt(s: System, peer: set<nat>, k: nat)
    requires AllForParticipant(s.wire) && k < |s.wire|
  {
    s.wire[k].1.CloseStream? ==>
      Received(Peer(s, peer, k).log, s.wire[k].1.sid) == Received(s.Accepted(), s.wire[k].1.sid)
  }

  /** A stream not opened yet has left no trace. */
  ghost predicate Unborn(s: System, r: Receiver, sid: nat) {
    && NoneOf(s.messagesRx, sid)
    && Count(s.prios.messages, sid) == 0
    && Received(s.taken, sid) == []
    && Received(r.log, sid) == []
    && !ClosedOn(s.wire, sid)
  }

  ghost predicate Distinct(sids: seq<nat>) {
    forall i, j :: 0 <= i < j < |sids| ==> sids[i] != sids[j]
  }

  ghost predicate NotClosed(s: System, sids: seq<nat>) {
    forall i :: 0 <= i < |sids| ==> !ClosedOn(s.wire, sids[i])
  }

  /** No stream is closed twice. */
  ghost predicate ClosesOnce(s: System) {
    && (s.closeMgr.Serving? || (s.closeMgr.Flushing? && s.closeMgr.rest.None?) ==>
          Distinct(s.closeRx) && NotClosed(s, s.closeRx))
    && (s.closeMgr.Flushing? ==> !ClosedOn(s.wire, s.closeMgr.sid))
    && (s.closeMgr.Flushing? && s.closeMgr.rest.None? ==> s.closeMgr.sid !in s.closeRx)
    && (s.closeMgr.Flushing? && s.closeMgr.rest.Some? ==>
          Distinct(s.closeMgr.rest.value) && NotClosed(s, s.closeMgr.rest.value)
          && s.closeMgr.sid !in s.closeMgr.rest.value)
    && (s.closeMgr.Leftover? ==> Distinct(s.closeMgr.todo) && NotClosed(s, s.closeMgr.todo))
  }

  /** System and peer `r` agree on what was accepted, sent and delivered. */
  ghost predicate TrackedBy(s: System, r: Receiver, prioOf: nat -> nat, peer: set<nat>) {
    && Synced(s.prios, r, s.taken, prioOf)
    && Routed(s.messagesRx, prioOf)
    && (forall sid :: sid in s.handles ==> prioOf(sid) < PRIO_MAX)
    && (forall sid :: sid in s.handles && !s.shutdownMgr.Finished? ==> sid in r.open || ClosedOn(s.wire, sid))
    && (forall sid :: sid in r.open ==> sid in s.handles || sid in peer)
    && (forall sid: nat :: sid !in s.handles ==> Unborn(s, r, sid))
  }

  ghost predicate Tracked(s: System, prioOf: nat -> nat, peer: set<nat>) {
    AllForParticipant(s.wire) && TrackedBy(s, HandleAll(Fresh(peer), s.wire), prioOf, peer)
  }

  ghost predicate AllComplete(s: System, peer: set<nat>)
    requires AllForParticipant(s.wire)
  {
    forall k :: 0 <= k < |s.wire| ==> CompleteAt(s, peer, k)
  }

  ghost predicate InStep(s: System, prioOf: nat -> nat, peer: set<nat>) {
    Inv(s) && ClosesOnce(s) && Tracked(s, prioOf, peer) && AllComplete(s, peer)
  }

  /** No tick starts a message whose mid is taken. */
  predicate Clean(s: System, m: Move)
    requires Ok(s)
  {
    m.Tick? ==> FillClean(Taken(s).state, s.framesPerTick)
  }

  // ----- no stream is closed twice

  lemma ClosedOnGrows(wire: seq<TaggedFrame>, more: seq<TaggedFrame>, sid: nat)
    ensures ClosedOn(wire, sid) ==> ClosedOn(wire + more, sid)
    ensures ClosedOn(wire + more, sid) ==>
            ClosedOn(wire, sid) || exists i :: 0 <= i < |more| && more[i].1 == CloseStream(sid)
  {
    if ClosedOn(wire, sid) {
      var i :| 0 <= i < |wire| && wire[i].1 == CloseStream(sid);
      assert (wire + more)[i] == wire[i];
    }
    if ClosedOn(wire + more, sid) {
      var i :| 0 <= i < |wire + more| && (wire + more)[i].1 == CloseStream(sid);
      assert i >= |wire| ==> (wire + more)[i] == more[i - |wire|];
    }
  }

  lemma TickCloses(s: System, sid: nat)
    requires Inv(s)
    ensures ClosedOn(s.wire + Filled(s).frames, sid) <==> ClosedOn(s.wire, sid)
  {
    FillTags(Taken(s).state, s.framesPerTick);
    ClosedOnGrows(s.wire, Filled(s).frames, sid);
  }

  /** Only `FinishClose` closes a stream, and only the one being deleted. */
  lemma ClosedBy(s: System, m: Move, prioOf: nat -> nat, peer: set<nat>, sid: nat)
    requires Inv(s) && Can(s, m, prioOf, peer)
    ensures ClosedOn(Do(s, m, prioOf, peer).wire, sid) <==>
            ClosedOn(s.wire, sid) || (m.FinishClose? && sid == s.closeMgr.sid)
  {
    var t := Do(s, m, prioOf, peer);
    if m.Tick? {
      TickCloses(s, sid);
    } else {
      OneFrame(s, m, prioOf, peer);
      ClosedOnGrows(s.wire, t.wire[|s.wire|..], sid);
      assert t.wire == s.wire + t.wire[|s.wire|..];
      if m.FinishClose? {
        assert t.wire[|s.wire|].1 == CloseStream(s.closeMgr.sid);
      }
    }
    hide Inv, Valid;
  }

  /** A closed stream is quiet, and off the table. */
  lemma ClosedIsQuiet(s: System, sid: nat)
    requires Inv(s) && ClosedOn(s.wire, sid)
    ensures Quiet(s, sid) && sid !in s.streams
  {
    var i :| 0 <= i < |s.wire| && s.wire[i].1 == CloseStream(sid);
  }

  lemma KeepClosesOnce(s: System, m: Move, prioOf: nat -> nat, peer: set<nat>)
    requires Inv(s) && Can(s, m, prioOf, peer) && ClosesOnce(s)
    ensures ClosesOnce(Do(s, m, prioOf, peer))
  {
    var t := Do(s, m, prioOf, peer);
    forall sid: nat
      ensures ClosedOn(t.wire, sid) <==> ClosedOn(s.wire, sid) || (m.FinishClose? && sid == s.closeMgr.sid)
    {
      ClosedBy(s, m, prioOf, peer, sid);
    }
    forall sid: nat | ClosedOn(s.wire, sid)
      ensures sid in s.handles && s.handles[sid].closed && sid !in s.streams
    {
      ClosedIsQuiet(s, sid);
    }
    ClosesOnceFrom(s, m, prioOf, peer);
  }

  lemma ClosesOnceFrom(s: System, m: Move, prioOf: nat -> nat, peer: set<nat>)
    requires HandlesOk(s) && IdsOk(s) && Can(s, m, prioOf, peer) && ClosesOnce(s)
    requires s.shutdownMgr.Finished? ==> s.closeMgr.Confirmed?
    requires forall sid: nat :: ClosedOn(Do(s, m, prioOf, peer).wire, sid) <==>
               ClosedOn(s.wire, sid) || (m.FinishClose? && sid == s.closeMgr.sid)
    requires forall sid: nat :: ClosedOn(s.wire, sid) ==>
               sid in s.handles && s.handles[sid].closed && sid !in s.streams
    ensures ClosesOnce(Do(s, m, prioOf, peer))
  {
    hide ClosedOn, Valid, Waiting, Count, Quiet, Ok, IdsBelow, Unused, DoTick, CloseHandles;
    if m.Drop? || m.TakeClose? {
      ClosesOnceServing(s, m, prioOf, peer);
      hide ClosesOnce;
    } else if !m.Open? && !m.TakeShutdown? && !m.TakeLeftover? && !m.FinishClose? && !m.Confirm? {
      CloseMgrIdle(s, m, prioOf, peer);
      hide Do, Can;
    }
  }

  lemma ClosesOnceServing(s: System, m: Move, prioOf: nat -> nat, peer: set<nat>)
    requires m.Drop? || m.TakeClose?
    requires HandlesOk(s) && IdsOk(s) && Can(s, m, prioOf, peer) && ClosesOnce(s)
    requires forall sid: nat :: ClosedOn(s.wire, sid) ==>
               sid in s.handles && s.handles[sid].closed && sid !in s.streams
    ensures ClosesOnce(Do(s, m, prioOf, peer))
  {
    hide ClosedOn, Valid, Waiting, Count, Quiet, Ok, IdsBelow, Unused;
  }

  lemma CloseMgrIdle(s: System, m: Move, prioOf: nat -> nat, peer: set<nat>)
    requires Can(s, m, prioOf, peer)
    requires !m.Open? && !m.Drop? && !m.TakeClose? && !m.TakeShutdown? && !m.TakeLeftover? && !m.FinishClose?
    requires !m.Confirm?
    ensures Do(s, m, prioOf, peer).closeRx == s.closeRx && Do(s, m, prioOf, peer).closeMgr == s.closeMgr
  {
    hide Ok, Filled, Taken, CloseHandles;
  }

  // ----- scheduler, wire and peer stay in step

  lemma PeerGrows(s: System, peer: set<nat>, f: TaggedFrame)
    requires AllForParticipant(s.wire) && ForParticipant(f.1)
    ensures AllForParticipant(s.wire + [f])
    ensures HandleAll(Fresh(peer), s.wire + [f]) == Handle(HandleAll(Fresh(peer), s.wire), f.1)
  {
    assert (s.wire + [f])[..|s.wire|] == s.wire;
  }

  /** Moves that touch neither the scheduler nor the channel. */
  lemma TrackIdle(s: System, m: Move, prioOf: nat -> nat, peer: set<nat>)
    requires Inv(s) && Can(s, m, prioOf, peer) && Tracked(s, prioOf, peer)
    requires !m.Tick? && !m.Open? && !m.RemoteOpen? && !m.FinishClose? && !m.ShutdownFlushed? && !m.SendPush?
    ensures Tracked(Do(s, m, prioOf, peer), prioOf, peer)
  {
    hide Synced, ClosedOn, NoneOf, Count, Ok, HandlesOk, IdsOk, PhasesOk, InOrder, HandleAll;
  }

  lemma TrackPush(s: System, sid: nat, prioOf: nat -> nat, peer: set<nat>)
    requires Inv(s) && Can(s, SendPush(sid), prioOf, peer) && Tracked(s, prioOf, peer)
    ensures Tracked(Do(s, SendPush(sid), prioOf, peer), prioOf, peer)
  {
    hide Synced, ClosedOn, Count, Ok, HandlesOk, IdsOk, PhasesOk, InOrder, HandleAll;
  }

  lemma TrackRemoteOpen(s: System, sid: nat, prioOf: nat -> nat, peer: set<nat>)
    requires Inv(s) && Can(s, RemoteOpen(sid), prioOf, peer) && Tracked(s, prioOf, peer)
    ensures Tracked(Do(s, RemoteOpen(sid), prioOf, peer), prioOf, peer)
  {
    hide Synced, ClosedOn, Count, NoneOf, Ok, HandlesOk, IdsOk, PhasesOk, InOrder;
    if !s.shutdownMgr.Finished? {
      PeerOpen(s, peer, sid);
    }
  }

  /** The peer's own streams are open at the peer until closed from here. */
  lemma {:induction false} PeerOpenFrom(r: Receiver, fs: seq<TaggedFrame>, sid: nat)
    requires AllForParticipant(fs) && sid in r.open && !ClosedOn(fs, sid)
    requires forall i :: 0 <= i < |fs| ==> !fs[i].1.Shutdown?
    ensures sid in HandleAll(r, fs).open
    decreases |fs|
  {
    if fs != [] {
      var n := |fs| - 1;
      assert fs == fs[..n] + [fs[n]];
      ClosedOnGrows(fs[..n], [fs[n]], sid);
      PeerOpenFrom(r, fs[..n], sid);
      assert fs[n].1 != CloseStream(sid);
    }
  }

  lemma PeerOpen(s: System, peer: set<nat>, sid: nat)
    requires WireOk(s) && !s.shutdownMgr.Finished? && sid in peer
    ensures sid in HandleAll(Fresh(peer), s.wire).open || ClosedOn(s.wire, sid)
  {
    if !ClosedOn(s.wire, sid) {
      PeerOpenFrom(Fresh(peer), s.wire, sid);
    }
  }

  /** Opening a stream nothing is known of, or closing one, keeps the agreement. */
  lemma SyncedOpen(s: State, r: Receiver, accepted: seq<Delivery>, prioOf: nat -> nat, sid: nat)
    requires Synced(s, r, accepted, prioOf) && prioOf(sid) < PRIO_MAX
    requires Count(s.messages, sid) == 0 && Received(accepted, sid) == [] && Received(r.log, sid) == []
    ensures Synced(s, r.(open := r.open + {sid}), accepted, prioOf)
  {
    CountZero(s.messages, sid);
    HollowPending(s.messages, prioOf(sid), sid);
  }

  lemma SyncedLess(s: State, r: Receiver, accepted: seq<Delivery>, prioOf: nat -> nat, open: set<nat>)
    requires Synced(s, r, accepted, prioOf) && open <= r.open
    ensures Synced(s, r.(open := open), accepted, prioOf)
  {
  }

  /** A stream born at both ends. */
  lemma TrackMore(s: System, t: System, r: Receiver, r': Receiver, sid: nat, prioOf: nat -> nat, peer: set<nat>)
    requires TrackedBy(s, r, prioOf, peer) && sid !in s.handles && prioOf(sid) < PRIO_MAX
    requires t.prios == s.prios && t.taken == s.taken && t.messagesRx == s.messagesRx
    requires t.handles.Keys == s.handles.Keys + {sid} && t.shutdownMgr == s.shutdownMgr
    requires r' == r.(open := r.open + {sid})
    requires forall x :: ClosedOn(t.wire, x) <==> ClosedOn(s.wire, x)
    ensures TrackedBy(t, r', prioOf, peer)
  {
    hide Synced, ClosedOn, Count, NoneOf;
    assert Unborn(s, r, sid);
    SyncedOpen(s.prios, r, s.taken, prioOf, sid);
  }

  lemma TrackRefused(s: System, prioOf: nat -> nat, peer: set<nat>)
    requires s.shutdownMgr.Finished? && Can(s, Open, prioOf, peer) && Tracked(s, prioOf, peer)
    ensures Tracked(Do(s, Open, prioOf, peer), prioOf, peer)
  {
    hide Synced, ClosedOn, Count, NoneOf, Ok, HandleAll;
  }

  lemma TrackOpen(s: System, prioOf: nat -> nat, peer: set<nat>)
    requires Inv(s) && Can(s, Open, prioOf, peer) && Tracked(s, prioOf, peer) && !s.shutdownMgr.Finished?
    ensures Tracked(Do(s, Open, prioOf, peer), prioOf, peer)
  {
    var sid := s.nextSid;
    var f := (sid, OpenStream(sid, prioOf(sid), 0));
    var r := HandleAll(Fresh(peer), s.wire);
    PeerGrows(s, peer, f);
    ClosedOnAll(s, Open, prioOf, peer);
    hide TrackedBy, ClosedOn, Ok, HandlesOk, PhasesOk, WireOk, HandleAll;
    TrackMore(s, Do(s, Open, prioOf, peer), r, Receiving.Handle(r, f.1), sid, prioOf, peer);
  }

  /** Closing streams at the peer. */
  lemma TrackLess(s: System, t: System, r: Receiver, r': Receiver, prioOf: nat -> nat, peer: set<nat>)
    requires TrackedBy(s, r, prioOf, peer)
    requires t.prios == s.prios && t.taken == s.taken && t.messagesRx == s.messagesRx && t.handles == s.handles
    requires s.shutdownMgr.Finished? ==> t.shutdownMgr.Finished?
    requires r' == r.(open := r'.open) && r'.open <= r.open
    requires forall sid :: sid in r.open ==> sid in r'.open || ClosedOn(t.wire, sid) || t.shutdownMgr.Finished?
    requires forall sid :: ClosedOn(s.wire, sid) ==> ClosedOn(t.wire, sid)
    requires forall sid :: ClosedOn(t.wire, sid) ==> ClosedOn(s.wire, sid) || sid in s.handles
    ensures TrackedBy(t, r', prioOf, peer)
  {
    hide Synced, ClosedOn, Count, NoneOf;
    SyncedLess(s.prios, r, s.taken, prioOf, r'.open);
  }

  lemma TrackFinishClose(s: System, prioOf: nat -> nat, peer: set<nat>)
    requires Inv(s) && Can(s, FinishClose, prioOf, peer) && Tracked(s, prioOf, peer)
    ensures Tracked(Do(s, FinishClose, prioOf, peer), prioOf, peer)
  {
    var sid := s.closeMgr.sid;
    var f := (sid, CloseStream(sid));
    PeerGrows(s, peer, f);
    ClosedOnAll(s, FinishClose, prioOf, peer);
    hide TrackedBy, ClosedOn, Ok, HandlesOk, PhasesOk, WireOk, HandleAll;
    TrackLess(s, Do(s, FinishClose, prioOf, peer), HandleAll(Fresh(peer), s.wire),
              Receiving.Handle(HandleAll(Fresh(peer), s.wire), f.1), prioOf, peer);
  }

  lemma ClosedOnAll(s: System, m: Move, prioOf: nat -> nat, peer: set<nat>)
    requires Inv(s) && Can(s, m, prioOf, peer)
    ensures forall sid: nat :: ClosedOn(Do(s, m, prioOf, peer).wire, sid) <==>
              ClosedOn(s.wire, sid) || (m.FinishClose? && sid == s.closeMgr.sid)
  {
    forall sid: nat
      ensures ClosedOn(Do(s, m, prioOf, peer).wire, sid) <==>
              ClosedOn(s.wire, sid) || (m.FinishClose? && sid == s.closeMgr.sid)
    {
      ClosedBy(s, m, prioOf, peer, sid);
    }
  }

  lemma TrackShutdown(s: System, prioOf: nat -> nat, peer: set<nat>)
    requires Inv(s) && Can(s, ShutdownFlushed, prioOf, peer) && Tracked(s, prioOf, peer)
    ensures Tracked(Do(s, ShutdownFlushed, prioOf, peer), prioOf, peer)
  {
    var r := HandleAll(Fresh(peer), s.wire);
    PeerGrows(s, peer, (0, Shutdown));
    ClosedOnAll(s, ShutdownFlushed, prioOf, peer);
    hide TrackedBy, ClosedOn, Ok, HandlesOk, PhasesOk, WireOk, HandleAll;
    TrackLess(s, Do(s, ShutdownFlushed, prioOf, peer), r,
              if s.disconnected then r else Receiving.Handle(r, Shutdown), prioOf, peer);
  }

  // ----- the tick

  /** Data frames hand nothing to a stream that is not open. */
  lemma {:induction false} NotOpenNotHanded(r: Receiver, fs: seq<TaggedFrame>, sid: nat)
    requires AllForParticipant(fs) && AllData(fs) && sid !in r.open
    ensures HandleAll(r, fs).open == r.open
    ensures Received(HandleAll(r, fs).log, sid) == Received(r.log, sid)
    decreases |fs|
  {
    if fs != [] {
      NotOpenNotHanded(r, fs[..|fs| - 1], sid);
      var r' := HandleAll(r, fs[..|fs| - 1]);
      var f := fs[|fs| - 1].1;
      if f.Data? && f.mid in r'.partial {
        var m := r'.partial[f.mid];
        DeliverOne(r'.log, Delivery(m.sid, m.buffer + f.data), sid);
      }
    }
  }

  lemma TickSynced(s: System, r: Receiver, prioOf: nat -> nat)
    requires Ok(s) && Clean(s, Tick) && Synced(s.prios, r, s.taken, prioOf) && Routed(s.messagesRx, prioOf)
    ensures AllForParticipant(Filled(s).frames) && AllData(Filled(s).frames)
    ensures Synced(DoTick(s).prios, HandleAll(r, Filled(s).frames), DoTick(s).taken, prioOf)
    ensures HandleAll(r, Filled(s).frames).open == r.open
  {
    hide Valid, Synced, FillClean;
    var a := Submit(s.messagesRx, s.flushedRx);
    StepSynced(s.prios, r, a, s.taken, prioOf);
    TakeValid(s.prios, s.messagesRx, s.flushedRx);
    HandleNone(r);
    FillTags(Taken(s).state, s.framesPerTick);
    FillSynced(Taken(s).state, s.framesPerTick, r, s.taken + Payloads(s.messagesRx), prioOf);
    StaysOpen(r, Filled(s).frames);
  }

  lemma TickUnborn(s: System, r: Receiver, prioOf: nat -> nat, sid: nat)
    requires Ok(s) && Clean(s, Tick) && Synced(s.prios, r, s.taken, prioOf) && Routed(s.messagesRx, prioOf)
    requires Unborn(s, r, sid) && (sid in r.open ==> prioOf(sid) < PRIO_MAX)
    ensures AllForParticipant(Filled(s).frames)
    ensures var t := DoTick(s); Count(t.prios.messages, sid) == 0 && Received(t.taken, sid) == []
    ensures Received(HandleAll(r, Filled(s).frames).log, sid) == []
  {
    TickSynced(s, r, prioOf);
    EnqueueAllCount(s.prios, s.messagesRx, sid);
    TakeValid(s.prios, s.messagesRx, s.flushedRx);
    FillTags(Taken(s).state, s.framesPerTick);
    NoPayload(s.messagesRx, sid);
    ReceivedConcat(s.taken, Payloads(s.messagesRx), sid);
    if sid !in r.open {
      NotOpenNotHanded(r, Filled(s).frames, sid);
    }
  }

  lemma {:induction false} TrackTick(s: System, prioOf: nat -> nat, peer: set<nat>)
    requires Inv(s) && Can(s, Tick, prioOf, peer) && Clean(s, Tick) && Tracked(s, prioOf, peer)
    requires forall sid :: sid in peer ==> prioOf(sid) < PRIO_MAX
    ensures Tracked(DoTick(s), prioOf, peer)
  {
    var t := DoTick(s);
    var r := HandleAll(Fresh(peer), s.wire);
    TickSynced(s, r, prioOf);
    AllForConcat(s.wire, Filled(s).frames);
    HandleAllConcat(Fresh(peer), s.wire, Filled(s).frames);
    ClosedOnAll(s, Tick, prioOf, peer);
    forall sid: nat | sid !in s.handles
      ensures Unborn(t, HandleAll(r, Filled(s).frames), sid)
    {
      assert Unborn(s, r, sid);
      TickUnborn(s, r, prioOf, sid);
    }
    hide Synced, ClosedOn, Count, Ok, HandlesOk, PhasesOk, WireOk, IdsOk, HandleAll, Clean, Unborn, Routed;
    assert Routed([], prioOf) by { NothingRouted(prioOf); }
  }

  lemma NothingRouted(prioOf: nat -> nat)
    ensures Routed([], prioOf)
  {
  }

  lemma AllForConcat(a: seq<TaggedFrame>, b: seq<TaggedFrame>)
    requires AllForParticipant(a) && AllForParticipant(b)
    ensures AllForParticipant(a + b)
  {
  }

  lemma KeepTracked(s: System, m: Move, prioOf: nat -> nat, peer: set<nat>)
    requires Inv(s) && Can(s, m, prioOf, peer) && Clean(s, m) && Tracked(s, prioOf, peer)
    requires forall sid :: sid in peer ==> prioOf(sid) < PRIO_MAX
    ensures Tracked(Do(s, m, prioOf, peer), prioOf, peer)
  {
    hide Inv, Tracked, Clean;
    match m
    case Tick => TrackTick(s, prioOf, peer);
    case Open => if s.shutdownMgr.Finished? { TrackRefused(s, prioOf, peer); } else { TrackOpen(s, prioOf, peer); }
    case RemoteOpen(sid) => TrackRemoteOpen(s, sid, prioOf, peer);
    case FinishClose => TrackFinishClose(s, prioOf, peer);
    case ShutdownFlushed => TrackShutdown(s, prioOf, peer);
    case SendPush(sid) => TrackPush(s, sid, prioOf, peer);
    case _ => TrackIdle(s, m, prioOf, peer);
  }

  // ----- complete at CloseStream

  /** What was accepted on a closed stream does not change any more. */
  lemma {:induction false} AcceptedKept(s: System, m: Move, prioOf: nat -> nat, peer: set<nat>, sid: nat)
    requires Inv(s) && Can(s, m, prioOf, peer) && ClosedOn(s.wire, sid)
    ensures Received(Do(s, m, prioOf, peer).Accepted(), sid) == Received(s.Accepted(), sid)
  {
    if m.SendPush? {
      ClosedIsQuiet(s, sid);
      hide Inv, Received, Payloads;
      var t := Do(s, m, prioOf, peer);
      ReceivedConcat(s.taken, Payloads(s.messagesRx), sid);
      ReceivedConcat(t.taken, Payloads(t.messagesRx), sid);
      NoPayload(s.messagesRx, sid);
      NoPayload(t.messagesRx, sid);
    } else {
      AcceptedIdle(s, m, prioOf, peer);
    }
  }

  /** Only a push adds to what was accepted. */
  lemma AcceptedIdle(s: System, m: Move, prioOf: nat -> nat, peer: set<nat>)
    requires Can(s, m, prioOf, peer) && !m.SendPush?
    ensures Do(s, m, prioOf, peer).Accepted() == s.Accepted()
  {
    hide Ok, Filled, Taken, CloseHandles;
    var t := Do(s, m, prioOf, peer);
    if m.Tick? {
      assert t.messagesRx == [] && Payloads([]) == [];
    } else {
      assert t.taken == s.taken && t.messagesRx == s.messagesRx;
    }
  }

  lemma CompleteWhenClosed(s: System, prioOf: nat -> nat, peer: set<nat>)
    requires Inv(s) && Can(s, FinishClose, prioOf, peer) && Tracked(s, prioOf, peer) && ClosesOnce(s)
    ensures Received(HandleAll(Fresh(peer), s.wire).log, s.closeMgr.sid) ==
            Received(Do(s, FinishClose, prioOf, peer).Accepted(), s.closeMgr.sid)
  {
    ReadyToClose(s, prioOf, peer);
    CloseAcceptsNothing(s, prioOf, peer);
    hide *;
    QuietIsComplete(s, prioOf, peer, s.closeMgr.sid);
  }

  lemma CloseAcceptsNothing(s: System, prioOf: nat -> nat, peer: set<nat>)
    requires Ok(s) && Can(s, FinishClose, prioOf, peer)
    ensures Do(s, FinishClose, prioOf, peer).Accepted() == s.Accepted()
  {
  }

  lemma ReadyToClose(s: System, prioOf: nat -> nat, peer: set<nat>)
    requires Inv(s) && Can(s, FinishClose, prioOf, peer) && Tracked(s, prioOf, peer) && ClosesOnce(s)
    ensures Quiet(s, s.closeMgr.sid) && s.closeMgr.sid in HandleAll(Fresh(peer), s.wire).open
  {
    hide Quiet, Hollow, NoneFull, Synced, ClosedOn;
  }

  /** With nothing of an open stream left to send, the peer has all of it. */
  lemma QuietIsComplete(s: System, prioOf: nat -> nat, peer: set<nat>, sid: nat)
    requires Ok(s) && Quiet(s, sid) && Tracked(s, prioOf, peer) && sid in HandleAll(Fresh(peer), s.wire).open
    ensures Received(HandleAll(Fresh(peer), s.wire).log, sid) == Received(s.Accepted(), sid)
  {
    hide HandleAll, Pending, Received, Payloads, Hollow, NoneFull;
    HollowPending(s.prios.messages, prioOf(sid), sid);
    NoPayload(s.messagesRx, sid);
    ReceivedConcat(s.taken, Payloads(s.messagesRx), sid);
  }

  lemma KeepComplete(s: System, m: Move, prioOf: nat -> nat, peer: set<nat>)
    requires Inv(s) && Can(s, m, prioOf, peer) && Orderly(s, m)
    requires Tracked(s, prioOf, peer) && ClosesOnce(s) && AllComplete(s, peer)
    ensures AllForParticipant(Do(s, m, prioOf, peer).wire) && AllComplete(Do(s, m, prioOf, peer), peer)
  {
    var t := Do(s, m, prioOf, peer);
    KeepInv(s, m, prioOf, peer);
    WireGrows(s, m, prioOf, peer);
    assert AllForParticipant(t.wire);
    hide Inv, Orderly, Tracked, ClosesOnce, CompleteAt, AllForParticipant, Do, Can;
    forall k | 0 <= k < |t.wire|
      ensures CompleteAt(t, peer, k)
    {
      if k < |s.wire| {
        CompleteStays(s, m, prioOf, peer, k);
      } else {
        CompleteAnew(s, m, prioOf, peer, k);
      }
    }
  }

  lemma CompleteStays(s: System, m: Move, prioOf: nat -> nat, peer: set<nat>, k: nat)
    requires Inv(s) && Can(s, m, prioOf, peer) && k < |s.wire| && CompleteAt(s, peer, k)
    requires var w := Do(s, m, prioOf, peer).wire; AllForParticipant(w) && s.wire <= w
    ensures CompleteAt(Do(s, m, prioOf, peer), peer, k)
  {
    var t := Do(s, m, prioOf, peer);
    hide Inv, Can, Do, Received, HandleAll;
    assert t.wire[k] == s.wire[k] && t.wire[..k] == s.wire[..k];
    if t.wire[k].1.CloseStream? {
      assert ClosedOn(s.wire, t.wire[k].1.sid);
      AcceptedKept(s, m, prioOf, peer, t.wire[k].1.sid);
    }
  }

  lemma CompleteAnew(s: System, m: Move, prioOf: nat -> nat, peer: set<nat>, k: nat)
    requires Inv(s) && Can(s, m, prioOf, peer) && Tracked(s, prioOf, peer) && ClosesOnce(s)
    requires AllForParticipant(Do(s, m, prioOf, peer).wire) && |s.wire| <= k < |Do(s, m, prioOf, peer).wire|
    ensures CompleteAt(Do(s, m, prioOf, peer), peer, k)
  {
    var t := Do(s, m, prioOf, peer);
    WireGrows(s, m, prioOf, peer);
    hide Inv, Can, Do, Received, HandleAll, Tracked, ClosesOnce;
    if t.wire[k].1.CloseStream? {
      assert t.wire[..k] == s.wire;
      CompleteWhenClosed(s, prioOf, peer);
    }
  }

  /** The channel is only appended to, and `CloseStream` only by `FinishClose`. */
  lemma {:induction false} WireGrows(s: System, m: Move, prioOf: nat -> nat, peer: set<nat>)
    requires Inv(s) && Can(s, m, prioOf, peer)
    ensures var w := Do(s, m, prioOf, peer).wire;
      && s.wire <= w
      && forall k :: |s.wire| <= k < |w| && w[k].1.CloseStream? ==>
           m.FinishClose? && k == |s.wire| && w[k].1.sid == s.closeMgr.sid
    ensures m.FinishClose? ==> Do(s, m, prioOf, peer).Accepted() == s.Accepted()
  {
    if m.Tick? {
      FillTags(Taken(s).state, s.framesPerTick);
    } else {
      OneFrame(s, m, prioOf, peer);
    }
  }

  // ----- whole runs

  ghost predicate CleanRun(s: System, moves: seq<Move>, prioOf: nat -> nat, peer: set<nat>)
    requires Legal(s, moves, prioOf, peer)
    decreases |moves|
  {
    moves == [] ||
    (Clean(s, moves[0]) && CleanRun(Do(s, moves[0], prioOf, peer), moves[1..], prioOf, peer))
  }

  lemma StartInStep(offset: nat, n: nat, prioOf: nat -> nat, peer: set<nat>)
    ensures InStep(Start(offset, n), prioOf, peer)
  {
    StartInv(offset, n);
    InitialSynced(peer, prioOf);
    forall sid: nat
      ensures Count(Initial().messages, sid) == 0
    {
      CountEmpty(Initial().messages, sid);
    }
  }

  lemma {:induction false} RunInStep(s: System, moves: seq<Move>, prioOf: nat -> nat, peer: set<nat>)
    requires InStep(s, prioOf, peer) && Legal(s, moves, prioOf, peer) && CleanRun(s, moves, prioOf, peer)
    requires forall sid :: sid in peer ==> prioOf(sid) < PRIO_MAX
    ensures InStep(After(s, moves, prioOf, peer), prioOf, peer)
    decreases |moves|
  {
    hide Inv, Can, Do, Orderly, Tracked, ClosesOnce, AllComplete, Clean;
    if moves != [] {
      KeepInv(s, moves[0], prioOf, peer);
      KeepClosesOnce(s, moves[0], prioOf, peer);
      KeepTracked(s, moves[0], prioOf, peer);
      KeepComplete(s, moves[0], prioOf, peer);
      RunInStep(Do(s, moves[0], prioOf, peer), moves[1..], prioOf, peer);
    }
  }

  /** When the peer comes to the `CloseStream` of a stream, at position `k` of what is
      sent, it has been handed every non-empty message ever accepted on that stream,
      byte for byte and in order. */
  lemma DeliveredBeforeClose(offset: nat, n: nat, moves: seq<Move>, prioOf: nat -> nat, peer: set<nat>, k: nat)
    requires Legal(Start(offset, n), moves, prioOf, peer) && CleanRun(Start(offset, n), moves, prioOf, peer)
    requires forall sid :: sid in peer ==> prioOf(sid) < PRIO_MAX
    requires var s := After(Start(offset, n), moves, prioOf, peer); k < |s.wire| && s.wire[k].1.CloseStream?
    ensures var s := After(Start(offset, n), moves, prioOf, peer);
      && AllForParticipant(s.wire[..k])
      && Received(HandleAll(Fresh(peer), s.wire[..k]).log, s.wire[k].1.sid) ==
         Received(s.Accepted(), s.wire[k].1.sid)
  {
    StartInStep(offset, n, prioOf, peer);
    RunInStep(Start(offset, n), moves, prioOf, peer);
    var s := After(Start(offset, n), moves, prioOf, peer);
    assert CompleteAt(s, peer, k);
  }
}
