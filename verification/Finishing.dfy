/** A shutdown can always be finished: from every state the managers alone get there. */
module Finishing {
  import opened Frames
  import opened Prios
  import opened Flushing
  import opened Filling
  import opened Participants
  import opened Closing
  import opened Racing

  /** Moves of the managers that need neither the API nor the peer. */
  predicate OfManagers(m: Move) {
    m.Tick? || m.StopSend? || m.TakeClose? || m.TakeShutdown? || m.TakeLeftover? || m.FinishClose? || m.Confirm?
    || m.ShutdownClosed? || m.ShutdownFlushed?
  }

  /** A run of the managers from `s` to `t`. */
  ghost predicate Managed(s: System, moves: seq<Move>, t: System, prioOf: nat -> nat, peer: set<nat>)
    decreases |moves|
  {
    if moves == [] then t == s
    else
      && OfManagers(moves[0]) && Can(s, moves[0], prioOf, peer)
      && Managed(Do(s, moves[0], prioOf, peer), moves[1..], t, prioOf, peer)
  }

  lemma ManagedNone(s: System, prioOf: nat -> nat, peer: set<nat>)
    ensures Managed(s, [], s, prioOf, peer)
  {
  }

  lemma ManagedOne(s: System, m: Move, prioOf: nat -> nat, peer: set<nat>)
    requires OfManagers(m) && Can(s, m, prioOf, peer)
    ensures Managed(s, [m], Do(s, m, prioOf, peer), prioOf, peer)
  {
    hide Can, Do;
    assert |[m][1..]| == 0;
  }

  lemma {:induction false} ManagedConcat(s: System, a: seq<Move>, t: System, b: seq<Move>, u: System,
                                         prioOf: nat -> nat, peer: set<nat>)
    requires Managed(s, a, t, prioOf, peer) && Managed(t, b, u, prioOf, peer)
    ensures Managed(s, a + b, u, prioOf, peer)
    decreases |a|
  {
    hide Can, Do;
    if a == [] {
      assert a + b == b;
    } else {
      assert (a + b)[1..] == a[1..] + b;
      ManagedConcat(Do(s, a[0], prioOf, peer), a[1..], t, b, u, prioOf, peer);
    }
  }

  lemma {:induction false} TicksManaged(s: System, moves: seq<Move>, prioOf: nat -> nat, peer: set<nat>)
    requires Legal(s, moves, prioOf, peer) && forall i :: 0 <= i < |moves| ==> moves[i].Tick?
    ensures Managed(s, moves, After(s, moves, prioOf, peer), prioOf, peer)
    decreases |moves|
  {
    hide Can, Do;
    if moves != [] {
      TicksManaged(Do(s, moves[0], prioOf, peer), moves[1..], prioOf, peer);
    }
  }

  // ----- what the managers keep

  /** Nothing the managers do opens a stream or touches a send under way; a stream leaves the
      table only by its `CloseStream`. */
  ghost predicate Kept(s: System, t: System) {
    && t.late == s.late && t.framesPerTick == s.framesPerTick && t.disconnected == s.disconnected
    && s.wire <= t.wire && t.handles.Keys == s.handles.Keys
    && (forall sid :: sid in s.handles ==> t.handles[sid].inFlight == s.handles[sid].inFlight)
    && forall sid :: sid in s.streams ==> sid in t.streams || ClosedOn(t.wire, sid)
  }

  lemma StepOk(s: System, m: Move, prioOf: nat -> nat, peer: set<nat>)
    requires OfManagers(m) && Can(s, m, prioOf, peer) && HandlesOk(s) && PhasesOk(s)
    ensures var t := Do(s, m, prioOf, peer); Kept(s, t) && HandlesOk(t) && PhasesOk(t)
  {
    StepKept(s, m, prioOf, peer);
    hide Kept, Ok;
    if !m.Tick? {
      KeepHandles(s, m, prioOf, peer);
      KeepPhases(s, m, prioOf, peer);
      hide Do, HandlesOk, PhasesOk;
    }
  }

  lemma StepKept(s: System, m: Move, prioOf: nat -> nat, peer: set<nat>)
    requires OfManagers(m) && Can(s, m, prioOf, peer)
    ensures Kept(s, Do(s, m, prioOf, peer))
  {
    hide Ok, Taken, Filled;
    if m.FinishClose? {
      assert Do(s, m, prioOf, peer).wire[|s.wire|].1 == CloseStream(s.closeMgr.sid);
    }
  }

  lemma KeptOn(s: System, t: System, u: System)
    requires Kept(s, t) && Kept(t, u)
    ensures Kept(s, u)
  {
    forall sid | sid in s.streams
      ensures sid in u.streams || ClosedOn(u.wire, sid)
    {
      if sid !in t.streams {
        ClosedOnGrows(t.wire, u.wire[|t.wire|..], sid);
        assert u.wire == t.wire + u.wire[|t.wire|..];
      }
    }
  }

  lemma {:induction false} ManagedKeeps(s: System, moves: seq<Move>, t: System, prioOf: nat -> nat, peer: set<nat>)
    requires Managed(s, moves, t, prioOf, peer) && HandlesOk(s) && PhasesOk(s)
    ensures Kept(s, t) && HandlesOk(t) && PhasesOk(t)
    decreases |moves|
  {
    hide Can, Do, HandlesOk, PhasesOk;
    if moves != [] {
      StepOk(s, moves[0], prioOf, peer);
      hide Kept;
      ManagedKeeps(Do(s, moves[0], prioOf, peer), moves[1..], t, prioOf, peer);
      KeptOn(s, Do(s, moves[0], prioOf, peer), t);
    }
  }

  /** Without a non-empty send under way such a run is orderly. */
  lemma {:induction false} ManagedLegal(s: System, moves: seq<Move>, t: System, prioOf: nat -> nat, peer: set<nat>)
    requires Managed(s, moves, t, prioOf, peer) && HandlesOk(s) && PhasesOk(s)
    requires forall sid :: sid in s.handles ==> Idle(s.handles[sid])
    ensures Legal(s, moves, prioOf, peer) && After(s, moves, prioOf, peer) == t
    decreases |moves|
  {
    hide Can, Do, HandlesOk, PhasesOk;
    if moves != [] {
      StepOk(s, moves[0], prioOf, peer);
      ManagedLegal(Do(s, moves[0], prioOf, peer), moves[1..], t, prioOf, peer);
    }
  }

  // ----- the flush of one stream

  /** The scheduler has been asked to tell, is going to be asked, or has told. */
  ghost predicate Coming(s: System, sid: nat, id: nat) {
    || (s.flushedRx == [FlushRequest(sid, id)] && Unused(s.prios.owned, id))
    || (s.flushedRx == [] && (id in s.told || Waiting(s.prios, sid, id)))
  }

  lemma FlushTick(s: System, sid: nat, id: nat, prioOf: nat -> nat, peer: set<nat>)
    requires Ok(s) && s.sendMgr.Looping? && !s.shutdownMgr.AwaitFlushed? && Coming(s, sid, id)
    ensures Can(s, Tick, prioOf, peer) && Orderly(s, Tick)
    ensures var u := Do(s, Tick, prioOf, peer);
      && Ok(u) && (id in u.told || Waiting(u.prios, sid, id))
      && u == s.(prios := u.prios, messagesRx := [], flushedRx := [], told := u.told, wire := u.wire, taken := u.taken)
  {
    if s.flushedRx != [] {
      FirstTick(s, sid, id, prioOf, peer);
    } else {
      TickMove(s, prioOf, peer);
      hide Waiting, Valid, Count;
      if id !in s.told {
        TakeValid(s.prios, s.messagesRx, []);
        Shape(s.prios);
        EnqueueAllWaiting(s.prios, s.messagesRx, sid, id);
        WaitingCount(Taken(s).state, sid, id);
        FirstFill(s, sid, id);
      }
    }
  }

  /** Nothing is on its way to the scheduler or queued there. */
  ghost predicate Drained(s: System) {
    Ok(s) && s.prios.queued == {} && s.messagesRx == [] && s.flushedRx == []
  }

  lemma DrainedUnused(s: System, id: nat)
    requires Drained(s)
    ensures Unused(s.prios.owned, id)
  {
    forall t: nat | t in s.prios.owned
      ensures false
    {
      NothingQueued(s.prios, t);
      OwnedIsQueued(s.prios, t);
    }
  }

  /** The flush of the stream being deleted completes, and its `CloseStream` is sent. */
  lemma FlushEnds(s: System, prioOf: nat -> nat, peer: set<nat>) returns (moves: seq<Move>, t: System)
    requires Ok(s) && s.sendMgr.Looping? && !s.shutdownMgr.AwaitFlushed? && s.framesPerTick > 0
    requires s.closeMgr.Flushing? && Coming(s, s.closeMgr.sid, s.closeMgr.id)
    ensures Managed(s, moves, t, prioOf, peer) && Drained(t)
    ensures t.sendMgr.Looping? && t.shutdownMgr == s.shutdownMgr && t.framesPerTick == s.framesPerTick
    ensures t.closeRx == s.closeRx && s.closeMgr.sid !in t.streams && ClosedOn(t.wire, s.closeMgr.sid)
    ensures t.closeMgr == if s.closeMgr.rest.None? then Serving else Leftover(s.closeMgr.rest.value)
  {
    var sid, id := s.closeMgr.sid, s.closeMgr.id;
    hide Managed, Ok, Waiting, Coming, Legal, After, DoTick;
    var ticks, v := FlushAnswered(s, prioOf, peer);
    t := Do(v, FinishClose, prioOf, peer);
    ManagedOne(v, FinishClose, prioOf, peer);
    ManagedConcat(s, ticks, v, [FinishClose], t, prioOf, peer);
    moves := ticks + [FinishClose];
    assert t.wire[|v.wire|].1 == CloseStream(sid);
  }

  lemma FlushAnswered(s: System, prioOf: nat -> nat, peer: set<nat>) returns (moves: seq<Move>, t: System)
    requires Ok(s) && s.sendMgr.Looping? && !s.shutdownMgr.AwaitFlushed? && s.framesPerTick > 0
    requires s.closeMgr.Flushing? && Coming(s, s.closeMgr.sid, s.closeMgr.id)
    ensures Managed(s, moves, t, prioOf, peer) && Drained(t) && s.closeMgr.id in t.told
    ensures t == s.(prios := t.prios, messagesRx := [],
      flushedRx := [], told := t.told, wire := t.wire, taken := t.taken)
  {
    var sid, id := s.closeMgr.sid, s.closeMgr.id;
    FlushTick(s, sid, id, prioOf, peer);
    ManagedOne(s, Tick, prioOf, peer);
    hide Managed, Ok, Waiting, Coming, Legal, After, Can, Do;
    var u := Do(s, Tick, prioOf, peer);
    var ticks := Drain(u, sid, id, prioOf, peer);
    TicksManaged(u, ticks, prioOf, peer);
    t := After(u, ticks, prioOf, peer);
    ManagedConcat(s, [Tick], u, ticks, t, prioOf, peer);
    moves := [Tick] + ticks;
  }

  // ----- all leftover streams

  /** No request to tell is registered or on its way. */
  ghost predicate Unasked(s: System) {
    s.flushedRx == [] && Unused(s.prios.owned, s.nextId)
  }

  lemma {:induction false} LeftoverEnds(s: System, prioOf: nat -> nat, peer: set<nat>)
    returns (moves: seq<Move>, t: System)
    requires Ok(s) && s.sendMgr.Looping? && s.shutdownMgr.AwaitClosed? && s.framesPerTick > 0
    requires s.closeMgr.Leftover? && Unasked(s)
    ensures Managed(s, moves, t, prioOf, peer)
    ensures Ok(t) && t.sendMgr.Looping? && t.shutdownMgr.AwaitClosed? && t.framesPerTick == s.framesPerTick
    ensures t.closeMgr.Confirmed? && t.flushedRx == []
    decreases if s.closeMgr.Leftover? then |s.closeMgr.todo| else 0
  {
    if s.closeMgr.todo == [] {
      ManagedOne(s, Confirm, prioOf, peer);
      return [Confirm], Do(s, Confirm, prioOf, peer);
    }
    var a := Do(s, TakeLeftover, prioOf, peer);
    ManagedOne(s, TakeLeftover, prioOf, peer);
    hide Managed, Valid, Waiting;
    var flush, b := FlushEnds(a, prioOf, peer);
    DrainedUnused(b, b.nextId);
    var rest;
    rest, t := LeftoverEnds(b, prioOf, peer);
    ManagedConcat(s, [TakeLeftover], a, flush, b, prioOf, peer);
    ManagedConcat(s, [TakeLeftover] + flush, b, rest, t, prioOf, peer);
    moves := [TakeLeftover] + flush + rest;
  }

  lemma {:induction false} Enumerate(sids: set<nat>) returns (order: seq<nat>)
    ensures Enumerates(order, sids)
  {
    if sids == {} {
      return [];
    }
    var sid :| sid in sids;
    var rest := Enumerate(sids - {sid});
    order := [sid] + rest;
  }

  /** `stream_close_mgr` confirms, wherever it is. */
  lemma CloseEnds(s: System, prioOf: nat -> nat, peer: set<nat>) returns (moves: seq<Move>, t: System)
    requires Inv(s) && s.shutdownMgr.AwaitClosed? && s.framesPerTick > 0
    ensures Managed(s, moves, t, prioOf, peer)
    ensures Ok(t) && t.sendMgr.Looping? && t.shutdownMgr.AwaitClosed? && t.framesPerTick == s.framesPerTick
    ensures t.closeMgr.Confirmed? && t.flushedRx == []
  {
    CloseMgrState(s);
    ManagedNone(s, prioOf, peer);
    hide Inv, Managed, Valid, Waiting, Enumerates;
    if s.closeMgr.Confirmed? {
      return [], s;
    }
    var first, a := [], s;
    if s.closeMgr.Flushing? {
      first, a := FlushEnds(s, prioOf, peer);
      DrainedUnused(a, a.nextId);
    }
    if a.closeMgr.Serving? {
      var order := Enumerate(a.streams);
      var b := Do(a, TakeShutdown(order), prioOf, peer);
      ManagedOne(a, TakeShutdown(order), prioOf, peer);
      ManagedConcat(s, first, a, [TakeShutdown(order)], b, prioOf, peer);
      first, a := first + [TakeShutdown(order)], b;
    }
    var rest;
    rest, t := LeftoverEnds(a, prioOf, peer);
    ManagedConcat(s, first, a, rest, t, prioOf, peer);
    moves := first + rest;
  }

  lemma CloseMgrState(s: System)
    requires Inv(s) && (s.shutdownMgr.Running? || s.shutdownMgr.AwaitClosed?)
    ensures Ok(s) && s.sendMgr.Looping?
    ensures if s.closeMgr.Flushing? then Coming(s, s.closeMgr.sid, s.closeMgr.id) else Unasked(s)
  {
    if !s.closeMgr.Flushing? {
      NobodyElse(s.prios.owned, s.nextId);
    }
  }

  // ----- the scheduler stops

  /** A round that takes nothing in. */
  lemma LaterTick(s: System, prioOf: nat -> nat, peer: set<nat>)
    requires Ok(s) && s.messagesRx == [] && s.flushedRx == [] && s.shutdownMgr.AwaitFlushed?
    requires !s.sendMgr.Stopped? && s.sendMgr != Stopping(true)
    ensures Managed(s, [Tick], DoTick(s), prioOf, peer)
    ensures DoTick(s).shutdownMgr.AwaitFlushed? && DoTick(s).framesPerTick == s.framesPerTick
    ensures var f := Fill(s.prios, s.framesPerTick); var u := DoTick(s);
      && Ok(u) && u.prios == f.state && u.messagesRx == [] && u.flushedRx == []
      && u.sendMgr == Stopping(f.frames == [])
  {
    FillValid(s.prios, s.framesPerTick);
    ManagedOne(s, Tick, prioOf, peer);
    hide Valid, Fill, Managed;
    assert Taken(s) == Outcome(s.prios, [], []);
  }

  lemma StopNow(s: System, prioOf: nat -> nat, peer: set<nat>) returns (moves: seq<Move>, t: System)
    requires Ok(s) && s.shutdownMgr.AwaitFlushed? && s.sendMgr == Stopping(true)
    ensures Managed(s, moves, t, prioOf, peer) && Ok(t) && t.shutdownMgr.AwaitFlushed? && t.sendMgr.Stopped?
    ensures t.closeMgr == s.closeMgr
  {
    ManagedOne(s, StopSend, prioOf, peer);
    return [StopSend], Do(s, StopSend, prioOf, peer);
  }

  lemma EmptyFill(s: State, n: nat)
    requires Valid(s) && s.queued == {}
    ensures Fill(s, n).frames == []
  {
    NextIsNext(s);
    FillUnfold(s, n);
  }

  /** Asked to stop, `send_mgr` sends what is queued and stops. */
  lemma {:induction false} SendStops(s: System, prioOf: nat -> nat, peer: set<nat>)
    returns (moves: seq<Move>, t: System)
    requires Ok(s) && s.messagesRx == [] && s.flushedRx == [] && s.framesPerTick > 0
    requires s.shutdownMgr.AwaitFlushed? && !s.sendMgr.Stopped?
    ensures Managed(s, moves, t, prioOf, peer) && Ok(t) && t.shutdownMgr.AwaitFlushed? && t.sendMgr.Stopped?
    decreases if |s.prios.points| == PRIO_MAX then Left(s.prios) else 0
  {
    Shape(s.prios);
    if s.sendMgr == Stopping(true) {
      moves, t := StopNow(s, prioOf, peer);
      return;
    }
    LaterTick(s, prioOf, peer);
    hide Managed, Ok, Fill, Left, Can, Do, DoTick;
    var u := DoTick(s);
    var rest;
    if s.prios.queued == {} {
      EmptyFill(s.prios, s.framesPerTick);
      rest, t := StopNow(u, prioOf, peer);
      ManagedConcat(s, [Tick], u, rest, t, prioOf, peer);
      return [Tick] + rest, t;
    }
    FillGetsOn(s.prios, s.framesPerTick);
    rest, t := SendStops(u, prioOf, peer);
    ManagedConcat(s, [Tick], u, rest, t, prioOf, peer);
    moves := [Tick] + rest;
  }

  /** Once asked to, `participant_shutdown_mgr` gets to its end. */
  lemma FlushedEnds(s: System, prioOf: nat -> nat, peer: set<nat>) returns (moves: seq<Move>, t: System)
    requires Ok(s) && s.flushedRx == [] && s.framesPerTick > 0 && s.shutdownMgr.AwaitFlushed?
    ensures Managed(s, moves, t, prioOf, peer) && t.shutdownMgr.Finished? && (!t.disconnected ==> ShutdownSent(t.wire))
  {
    ManagedNone(s, prioOf, peer);
    hide Managed;
    var stops, u := [], s;
    if s.sendMgr == Stopping(true) {
      stops, u := StopNow(s, prioOf, peer);
    } else if !s.sendMgr.Stopped? {
      stops, u := TickAndStop(s, prioOf, peer);
    }
    ManagedOne(u, ShutdownFlushed, prioOf, peer);
    t := Do(u, ShutdownFlushed, prioOf, peer);
    assert !t.disconnected ==> t.wire[|u.wire|].1.Shutdown?;
    ManagedConcat(s, stops, u, [ShutdownFlushed], t, prioOf, peer);
    moves := stops + [ShutdownFlushed];
  }

  /** One round takes in what is on its way. */
  lemma TickAndStop(s: System, prioOf: nat -> nat, peer: set<nat>) returns (moves: seq<Move>, t: System)
    requires Ok(s) && s.framesPerTick > 0 && s.shutdownMgr.AwaitFlushed?
    requires !s.sendMgr.Stopped? && s.sendMgr != Stopping(true)
    ensures Managed(s, moves, t, prioOf, peer) && Ok(t) && t.shutdownMgr.AwaitFlushed? && t.sendMgr.Stopped?
  {
    ManagedOne(s, Tick, prioOf, peer);
    hide Managed, Valid;
    var u := DoTick(s);
    var rest;
    rest, t := SendStops(u, prioOf, peer);
    ManagedConcat(s, [Tick], u, rest, t, prioOf, peer);
    moves := [Tick] + rest;
  }

  // ----- the shutdown ends

  lemma ManagersFinish(s: System, prioOf: nat -> nat, peer: set<nat>) returns (moves: seq<Move>, t: System)
    requires Inv(s) && !s.shutdownMgr.Running? && s.framesPerTick > 0
    ensures Managed(s, moves, t, prioOf, peer) && t.shutdownMgr.Finished? && (!t.disconnected ==> ShutdownSent(t.wire))
  {
    ManagedNone(s, prioOf, peer);
    hide Managed, Valid, IdsBelow, InOrder, ShutdownSent, Quiet;
    if s.shutdownMgr.Finished? {
      return [], s;
    }
    if s.shutdownMgr.AwaitFlushed? {
      moves, t := FlushedEnds(s, prioOf, peer);
      return;
    }
    var first, a := CloseEnds(s, prioOf, peer);
    ManagedOne(a, ShutdownClosed, prioOf, peer);
    var b := Do(a, ShutdownClosed, prioOf, peer);
    var rest;
    rest, t := FlushedEnds(b, prioOf, peer);
    ManagedConcat(s, first, a, [ShutdownClosed], b, prioOf, peer);
    ManagedConcat(s, first + [ShutdownClosed], b, rest, t, prioOf, peer);
    moves := first + [ShutdownClosed] + rest;
  }

  /** Every stream but the late ones is closed, and the peer told. */
  ghost predicate AllClosed(s: System, t: System) {
    && t.late == s.late && t.streams <= s.late
    && (forall sid :: sid in s.handles && sid !in s.late ==> sid in t.handles && t.handles[sid].closed)
    && forall sid :: sid in s.streams && sid !in s.late ==> ClosedOn(t.wire, sid)
  }

  /** Whatever has happened before a shutdown is asked for and since, the managers alone can
      finish it, with every stream closed that was open when the leftover ones were listed;
      orderly, if no send of a non-empty message is under way. */
  lemma ShutdownCanFinish(offset: nat, n: nat, run: seq<Move>, prioOf: nat -> nat, peer: set<nat>)
    returns (moves: seq<Move>, t: System)
    requires n > 0 && Legal(Start(offset, n), run, prioOf, peer)
    requires !After(Start(offset, n), run, prioOf, peer).shutdownMgr.Running?
    ensures var s := After(Start(offset, n), run, prioOf, peer);
      && Managed(s, moves, t, prioOf, peer)
      && t.shutdownMgr.Finished? && AllClosed(s, t)
      && s.wire <= t.wire && (!t.disconnected ==> ShutdownSent(t.wire))
      && ((forall sid :: sid in s.handles ==> Idle(s.handles[sid])) ==>
            Legal(s, moves, prioOf, peer) && After(s, moves, prioOf, peer) == t)
  {
    var s := After(Start(offset, n), run, prioOf, peer);
    StartInv(offset, n);
    RunInv(Start(offset, n), run, prioOf, peer);
    RunPrios(Start(offset, n), run, prioOf, peer);
    moves, t := ManagersFinish(s, prioOf, peer);
    ManagedKeeps(s, moves, t, prioOf, peer);
    ManagedAllClosed(s, t);
    hide Managed, Can, Do, HandlesOk, PhasesOk, IdsOk, WireOk, AllClosed;
    if forall sid :: sid in s.handles ==> Idle(s.handles[sid]) {
      ManagedLegal(s, moves, t, prioOf, peer);
    }
  }

  lemma ManagedAllClosed(s: System, t: System)
    requires Kept(s, t) && HandlesOk(t) && PhasesOk(t) && t.shutdownMgr.Finished?
    ensures AllClosed(s, t)
  {
    hide ClosedOn;
  }
}
