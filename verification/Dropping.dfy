/** Dropping a stream closes it: what leads to `CloseStream` without a shutdown. */
module Dropping {
  import opened Prios
  import opened Flushing
  import opened Participants
  import opened Closing
  import opened Racing
  import opened Finishing

  // ----- a requested deletion is carried out

  /** `stream_close_mgr` serves its requests one after the other. */
  lemma {:induction false} RequestServed(s: System, sid: nat, prioOf: nat -> nat, peer: set<nat>)
    returns (moves: seq<Move>, t: System)
    requires Ok(s) && s.sendMgr.Looping? && s.shutdownMgr.Running? && s.framesPerTick > 0
    requires s.closeMgr.Serving? && Unasked(s) && sid in s.closeRx
    ensures Managed(s, moves, t, prioOf, peer) && t.shutdownMgr.Running?
    ensures sid !in t.streams && ClosedOn(t.wire, sid)
    decreases |s.closeRx|
  {
    var a := Do(s, TakeClose, prioOf, peer);
    ManagedOne(s, TakeClose, prioOf, peer);
    hide Managed, Valid, Waiting, ClosedOn;
    moves, t := FlushEnds(a, prioOf, peer);
    ManagedConcat(s, [TakeClose], a, moves, t, prioOf, peer);
    moves := [TakeClose] + moves;
    if s.closeRx[0] != sid {
      DrainedUnused(t, t.nextId);
      var rest, u := RequestServed(t, sid, prioOf, peer);
      ManagedConcat(s, moves, t, rest, u, prioOf, peer);
      moves, t := moves + rest, u;
    }
  }

  lemma RequestedCloses(s: System, sid: nat, prioOf: nat -> nat, peer: set<nat>)
    returns (moves: seq<Move>, t: System)
    requires Inv(s) && s.shutdownMgr.Running? && s.framesPerTick > 0 && Requested(s, sid)
    ensures Managed(s, moves, t, prioOf, peer) && t.shutdownMgr.Running?
    ensures sid !in t.streams && ClosedOn(t.wire, sid)
  {
    CloseMgrState(s);
    ServingOrFlushing(s);
    hide Inv, Managed, Valid, Waiting, ClosedOn;
    if s.closeMgr.Flushing? {
      moves, t := FlushEnds(s, prioOf, peer);
      if s.closeMgr.sid != sid {
        DrainedUnused(t, t.nextId);
        var rest, u := RequestServed(t, sid, prioOf, peer);
        ManagedConcat(s, moves, t, rest, u, prioOf, peer);
        moves, t := moves + rest, u;
      }
    } else {
      moves, t := RequestServed(s, sid, prioOf, peer);
    }
  }

  lemma ServingOrFlushing(s: System)
    requires PhasesOk(s) && s.shutdownMgr.Running?
    ensures s.closeMgr.Serving? || (s.closeMgr.Flushing? && s.closeMgr.rest.None?)
  {
  }

  // ----- and no other

  /** On the table, and nobody asked for its deletion. */
  ghost predicate Left(s: System, sid: nat) {
    && HandlesOk(s) && PhasesOk(s) && s.shutdownMgr.Running?
    && sid in s.streams && !Requested(s, sid) && !ClosedOn(s.wire, sid)
  }

  lemma StaysLeft(s: System, m: Move, prioOf: nat -> nat, peer: set<nat>, sid: nat)
    requires Inv(s) && OfManagers(m) && Can(s, m, prioOf, peer) && Left(s, sid)
    ensures Inv(Do(s, m, prioOf, peer)) && Left(Do(s, m, prioOf, peer), sid) && Orderly(s, m)
  {
    ServingOrFlushing(s);
    ClosedBy(s, m, prioOf, peer, sid);
    KeepInv(s, m, prioOf, peer);
    hide Ok, HandlesOk, IdsOk, PhasesOk, RequestsOk, WireOk, ClosedOn;
  }

  lemma {:induction false} RunStaysLeft(s: System, moves: seq<Move>, t: System, prioOf: nat -> nat,
          peer: set<nat>, sid: nat)
    requires Inv(s) && Managed(s, moves, t, prioOf, peer) && Left(s, sid)
    ensures Left(t, sid)
    decreases |moves|
  {
    hide Inv, Left, Can, Do;
    if moves != [] {
      StaysLeft(s, moves[0], prioOf, peer, sid);
      RunStaysLeft(Do(s, moves[0], prioOf, peer), moves[1..], t, prioOf, peer, sid);
    }
  }

  /** The run of the managers is one of the runs considered elsewhere. */
  lemma {:induction false} RunningLegal(s: System, moves: seq<Move>, t: System, prioOf: nat -> nat, peer: set<nat>)
    requires Managed(s, moves, t, prioOf, peer) && HandlesOk(s) && PhasesOk(s) && s.shutdownMgr.Running?
    ensures Legal(s, moves, prioOf, peer) && After(s, moves, prioOf, peer) == t
    decreases |moves|
  {
    if moves != [] {
      ServingOrFlushing(s);
      StepOk(s, moves[0], prioOf, peer);
      StillRunning(s, moves[0], prioOf, peer);
      hide HandlesOk, PhasesOk, Can, Do;
      RunningLegal(Do(s, moves[0], prioOf, peer), moves[1..], t, prioOf, peer);
    }
  }

  lemma StillRunning(s: System, m: Move, prioOf: nat -> nat, peer: set<nat>)
    requires OfManagers(m) && Can(s, m, prioOf, peer) && s.shutdownMgr.Running?
    ensures Do(s, m, prioOf, peer).shutdownMgr.Running?
  {
    hide Ok, Taken, Filled;
  }

  /** Exactly when a stream on the table will be closed without a shutdown: the managers can get
      its `CloseStream` sent if and only if its deletion has been requested. */
  lemma CloseExact(s: System, sid: nat, prioOf: nat -> nat, peer: set<nat>)
    requires Inv(s) && s.shutdownMgr.Running? && s.framesPerTick > 0 && sid in s.streams
    ensures (exists moves, t :: Managed(s, moves, t, prioOf, peer) && ClosedOn(t.wire, sid)) <==> Requested(s, sid)
  {
    if Requested(s, sid) {
      var moves, t := RequestedCloses(s, sid, prioOf, peer);
    } else {
      NotClosed(s, sid);
      hide Inv, Managed, ClosedOn, Requested;
      forall moves, t | Managed(s, moves, t, prioOf, peer)
        ensures !ClosedOn(t.wire, sid)
      {
        RunStaysLeft(s, moves, t, prioOf, peer, sid);
      }
    }
  }

  lemma NotClosed(s: System, sid: nat)
    requires Inv(s) && sid in s.streams
    ensures !ClosedOn(s.wire, sid)
  {
    if ClosedOn(s.wire, sid) {
      ClosedIsQuiet(s, sid);
    }
  }

  // ----- dropping

  /** From every state a run reaches with a dropped stream still on the table, neither side
      shutting down, the managers alone get it off the table and its `CloseStream` sent, with
      no shutdown. */
  lemma DropCloses(offset: nat, n: nat, run: seq<Move>, prioOf: nat -> nat, peer: set<nat>, sid: nat)
    returns (moves: seq<Move>, t: System)
    requires n > 0 && Legal(Start(offset, n), run, prioOf, peer)
    requires var s := After(Start(offset, n), run, prioOf, peer);
      && s.shutdownMgr.Running? && !s.disconnected
      && sid in s.streams && sid in s.handles && !s.handles[sid].alive
    ensures var s := After(Start(offset, n), run, prioOf, peer);
      && Managed(s, moves, t, prioOf, peer)
      && Legal(s, moves, prioOf, peer) && After(s, moves, prioOf, peer) == t
    ensures t.shutdownMgr.Running? && sid !in t.streams && ClosedOn(t.wire, sid)
  {
    var s := After(Start(offset, n), run, prioOf, peer);
    StartInv(offset, n);
    RunInv(Start(offset, n), run, prioOf, peer);
    RunPrios(Start(offset, n), run, prioOf, peer);
    moves, t := RequestedCloses(s, sid, prioOf, peer);
    RunningLegal(s, moves, t, prioOf, peer);
  }

  /** Dropping asks for the deletion, unless the stream has been closed already. */
  lemma DropRequests(s: System, sid: nat, prioOf: nat -> nat, peer: set<nat>)
    requires Inv(s) && Can(s, Drop(sid), prioOf, peer)
    ensures var t := Do(s, Drop(sid), prioOf, peer);
      Requested(t, sid) <==> Requested(s, sid) || !s.handles[sid].closed
  {
    hide Ok;
  }
}
