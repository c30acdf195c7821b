/** Why the order of closing needs its condition. The API checks `send_closed` and
    pushes in two steps (network/src/api.rs), so a send can pass its check, and be
    queued only after the stream's `CloseStream`. */
module Racing {
  import opened Wrappers
  import opened Frames
  import opened Prios
  import opened Flushing
  import opened Delivering
  import opened Filling
  import opened Participants
  import opened Closing
  import opened Draining

  lemma {:induction false} LegalConcat(s: System, a: seq<Move>, b: seq<Move>, prioOf: nat -> nat, peer: set<nat>)
    requires Legal(s, a, prioOf, peer) && Legal(After(s, a, prioOf, peer), b, prioOf, peer)
    ensures Legal(s, a + b, prioOf, peer)
    ensures After(s, a + b, prioOf, peer) == After(After(s, a, prioOf, peer), b, prioOf, peer)
    decreases |a|
  {
    hide Can, Do, Orderly;
    if a == [] {
      assert a + b == b;
    } else {
      assert (a + b)[1..] == a[1..] + b;
      LegalConcat(Do(s, a[0], prioOf, peer), a[1..], b, prioOf, peer);
    }
  }

  lemma LegalOne(s: System, m: Move, prioOf: nat -> nat, peer: set<nat>)
    requires Can(s, m, prioOf, peer) && Orderly(s, m)
    ensures Legal(s, [m], prioOf, peer) && After(s, [m], prioOf, peer) == Do(s, m, prioOf, peer)
  {
    hide Can, Do, Orderly;
    assert |[m][1..]| == 0;
  }

  // ----- ticks send everything

  /** Work left, and whether the next round only resets the points. */
  ghost function Left(s: State): nat
    requires |s.points| == PRIO_MAX
  {
    2 * Work(s.messages) + if Next(s).None? then 1 else 0
  }

  lemma {:induction false} FillNoMore(s: State, n: nat)
    requires Valid(s)
    ensures Valid(Fill(s, n).state) && Work(Fill(s, n).state.messages) <= Work(s.messages)
    decreases n
  {
    hide Valid, Work, Fill;
    FillUnfold(s, n);
    FillValid(s, n);
    if n > 0 && Next(s).Some? {
      ServeWork(s, Next(s).value);
      FillNoMore(ServePrio(s, Next(s).value).state, n - 1);
    }
  }

  lemma ResetReady(s: State)
    requires Valid(s) && s.queued != {} && s.points == Zeros()
    ensures Next(s).Some?
  {
    NextIsNext(s);
    var p :| p in s.queued;
    assert s.points[p] == 0;
  }

  lemma ResetLeft(s: State)
    requires Valid(s) && s.queued != {} && |s.points| == PRIO_MAX && Next(s).None?
    ensures Left(s.(points := Zeros())) < Left(s)
  {
    hide Work;
    ResetReady(s.(points := Zeros()));
  }

  lemma LessLeft(s: State, t: State)
    requires |s.points| == |t.points| == PRIO_MAX && Work(t.messages) < Work(s.messages)
    ensures Left(t) < Left(s)
  {
    hide Next, Work;
  }

  /** Every round gets on. */
  lemma FillGetsOn(s: State, n: nat)
    requires Valid(s) && s.queued != {} && n > 0
    ensures Valid(Fill(s, n).state) && |Fill(s, n).state.points| == |s.points| == PRIO_MAX
    ensures Left(Fill(s, n).state) < Left(s)
  {
    hide *;
    FillUnfold(s, n);
    FillValid(s, n);
    Shape(Fill(s, n).state);
    if Next(s).None? {
      ResetLeft(s);
    } else {
      var s' := ServePrio(s, Next(s).value).state;
      ServeWork(s, Next(s).value);
      FillNoMore(s', n - 1);
      LessLeft(s, Fill(s', n - 1).state);
    }
  }

  /** A tick with nothing new only runs the scheduler. */
  lemma QuietTick(s: System, prioOf: nat -> nat, peer: set<nat>)
    requires Ok(s) && s.sendMgr.Looping? && !s.shutdownMgr.AwaitFlushed? && s.messagesRx == [] && s.flushedRx == []
    ensures Can(s, Tick, prioOf, peer) && Orderly(s, Tick)
    ensures var f := Fill(s.prios, s.framesPerTick);
      Do(s, Tick, prioOf, peer) ==
        s.(prios := f.state, told := s.told + (set id | id in f.notified), wire := s.wire + f.frames)
    ensures Ok(Do(s, Tick, prioOf, peer))
  {
    FillValid(s.prios, s.framesPerTick);
    hide Valid, Fill;
    assert Taken(s) == Outcome(s.prios, [], []);
    assert s.taken + Payloads([]) == s.taken;
    assert s.told + (set id | id in Taken(s).notified) == s.told;
  }

  /** Until everything queued is sent and a waiting sender told. */
  lemma {:induction false} Drain(s: System, sid: nat, id: nat, prioOf: nat -> nat,
          peer: set<nat>) returns (moves: seq<Move>)
    requires Ok(s) && s.sendMgr.Looping? && !s.shutdownMgr.AwaitFlushed? && s.messagesRx == [] && s.flushedRx == []
    requires s.framesPerTick > 0 && (id in s.told || Waiting(s.prios, sid, id))
    ensures Legal(s, moves, prioOf, peer) && forall i :: 0 <= i < |moves| ==> moves[i].Tick?
    ensures var t := After(s, moves, prioOf, peer);
      && t == s.(prios := t.prios, told := t.told, wire := t.wire)
      && Ok(t) && t.prios.queued == {} && id in t.told
    decreases if |s.prios.points| == PRIO_MAX then Left(s.prios) else 0
  {
    Shape(s.prios);
    if s.prios.queued == {} {
      if id !in s.told {
        WaitingCount(s.prios, sid, id);
        NothingQueued(s.prios, sid);
      }
      return [];
    }
    QuietTick(s, prioOf, peer);
    FillGetsOn(s.prios, s.framesPerTick);
    if id !in s.told {
      FillWaiting(s.prios, s.framesPerTick, sid, id);
    }
    hide Valid, Fill, Waiting, Left, Can, Do;
    var u := Do(s, Tick, prioOf, peer);
    var rest := Drain(u, sid, id, prioOf, peer);
    LegalOne(s, Tick, prioOf, peer);
    LegalConcat(s, [Tick], rest, prioOf, peer);
    return [Tick] + rest;
  }

  lemma NothingQueued(s: State, sid: nat)
    requires Valid(s) && s.queued == {}
    ensures Count(s.messages, sid) == 0
  {
    CountEmpty(s.messages, sid);
  }

  // ----- the race

  /** The first tick answers the flush request or leaves it waiting. */
  lemma FirstTick(a: System, sid: nat, id: nat, prioOf: nat -> nat, peer: set<nat>)
    requires Ok(a) && a.sendMgr.Looping? && !a.shutdownMgr.AwaitFlushed?
    requires a.flushedRx == [FlushRequest(sid, id)] && Unused(a.prios.owned, id)
    ensures Can(a, Tick, prioOf, peer) && Orderly(a, Tick)
    ensures var u := Do(a, Tick, prioOf, peer);
      && Ok(u) && (id in u.told || Waiting(u.prios, sid, id))
      && u == a.(prios := u.prios, messagesRx := [], flushedRx := [], told := u.told, wire := u.wire, taken := u.taken)
  {
    RequestAnswered(a.prios, a.messagesRx, a.flushedRx, 0);
    FirstFill(a, sid, id);
    hide *;
    TickMove(a, prioOf, peer);
  }

  lemma FirstFill(a: System, sid: nat, id: nat)
    requires Ok(a)
    requires var o := Take(a.prios, a.messagesRx, a.flushedRx);
      if Count(o.state.messages, sid) == 0 then id in o.notified else Waiting(o.state, sid, id)
    ensures Ok(DoTick(a)) && (id in DoTick(a).told || Waiting(DoTick(a).prios, sid, id))
  {
    hide Valid, Take, Fill, Count, Waiting;
    var o := Taken(a);
    FillValid(o.state, a.framesPerTick);
    if Count(o.state.messages, sid) != 0 {
      FillWaiting(o.state, a.framesPerTick, sid, id);
    }
  }

  lemma TickMove(a: System, prioOf: nat -> nat, peer: set<nat>)
    requires Ok(a) && a.sendMgr.Looping? && !a.shutdownMgr.AwaitFlushed?
    ensures Can(a, Tick, prioOf, peer) && Orderly(a, Tick) && Do(a, Tick, prioOf, peer) == DoTick(a)
    ensures var u := DoTick(a);
      u == a.(prios := u.prios, messagesRx := [], flushedRx := [], told := u.told, wire := u.wire, taken := u.taken)
  {
    hide Ok, Taken, Filled;
  }

  lemma NobodyElse(owned: map<nat, SidInfo>, id: nat)
    requires IdsBelow(owned, id)
    ensures Unused(owned, id)
  {
  }

  /** A message of a stream that has been closed, with nothing else queued, is put on the
      wire by the next tick, or by the one after it if that one only resets the points. */
  lemma {:induction false} LateTicks(x: System, sub: Submission, prioOf: nat -> nat, peer: set<nat>)
    returns (moves: seq<Move>)
    requires Ok(x) && x.sendMgr.Looping? && !x.shutdownMgr.AwaitFlushed? && x.framesPerTick > 0
    requires x.prios.queued == {} && x.messagesRx == [sub] && x.flushedRx == []
    requires sub.msg.buffer != [] && ClosedOn(x.wire, sub.sid)
    ensures Legal(x, moves, prioOf, peer) && !InOrder(After(x, moves, prioOf, peer).wire)
  {
    assert x.messagesRx[0] == sub;
    OnlyQueued(x.prios, sub);
    TakeValid(x.prios, [sub], []);
    LegalOne(x, Tick, prioOf, peer);
    var s := Taken(x).state;
    FillUnfold(s, x.framesPerTick);
    FillValid(s, x.framesPerTick);
    hide Valid, Fill, Taken, InOrder, Legal, After, Next, ServePrio;
    if Next(s).Some? {
      SentAtOnce(s, sub, x.framesPerTick);
      TooLate(x.wire, Filled(x).frames, sub.sid);
      return [Tick];
    }
    var y := DoTick(x);
    assert y.prios == s.(points := Zeros()) && y.wire == x.wire;
    LateTick(y, sub, prioOf, peer);
    LegalConcat(x, [Tick], [Tick], prioOf, peer);
    return [Tick] + [Tick];
  }

  lemma LateTick(y: System, sub: Submission, prioOf: nat -> nat, peer: set<nat>)
    requires Ok(y) && y.sendMgr.Looping? && !y.shutdownMgr.AwaitFlushed? && y.framesPerTick > 0
    requires Only(y.prios, sub) && y.prios.points == Zeros() && y.messagesRx == [] && y.flushedRx == []
    requires sub.msg.buffer != [] && ClosedOn(y.wire, sub.sid)
    ensures Legal(y, [Tick], prioOf, peer) && !InOrder(After(y, [Tick], prioOf, peer).wire)
  {
    ResetReady(y.prios);
    QuietTick(y, prioOf, peer);
    LegalOne(y, Tick, prioOf, peer);
    hide Valid, Fill, InOrder, Legal, After, Next;
    SentAtOnce(y.prios, sub, y.framesPerTick);
    TooLate(y.wire, Fill(y.prios, y.framesPerTick).frames, sub.sid);
  }

  /** Only `sub` is queued. */
  ghost predicate Only(s: State, sub: Submission) {
    && Valid(s) && ValidSubmission(sub) && s.queued == {sub.prio} && s.messages[sub.prio] == [Entry(sub.sid, sub.msg)]
  }

  lemma OnlyQueued(s: State, sub: Submission)
    requires Valid(s) && ValidSubmission(sub) && s.queued == {}
    ensures ValidSubmissions([sub]) && Only(Take(s, [sub], []).state, sub) && Take(s, [sub], []).notified == []
  {
    assert EnqueueAll(s, [sub][..0]) == s;
    assert EnqueueAll(s, [sub]) == Enqueue(s, sub);
    EnqueueValid(s, sub);
    assert s.messages[sub.prio] == [];
  }

  lemma SentAtOnce(s: State, sub: Submission, n: nat)
    requires Only(s, sub) && sub.msg.buffer != [] && Next(s).Some? && n > 0
    ensures |Fill(s, n).frames| > 0 && IsData(Fill(s, n).frames[0]) && Fill(s, n).frames[0].0 == sub.sid
  {
    NextIsNext(s);
    FillUnfold(s, n);
    hide Valid, Fill;
    assert Next(s).value in s.queued;
    assert ServePrio(s, sub.prio).frames == sub.msg.NextFrames(sub.sid);
  }

  lemma TooLate(wire: seq<TaggedFrame>, frames: seq<TaggedFrame>, sid: nat)
    requires ClosedOn(wire, sid) && frames != [] && IsData(frames[0]) && frames[0].0 == sid
    ensures !InOrder(wire + frames)
  {
    var w := wire + frames;
    var i :| 0 <= i < |wire| && wire[i].1 == CloseStream(sid);
    assert w[i] == wire[i] && w[|wire|] == frames[0];
  }

  /** With a non-empty send under way, taking a leftover stream down can go wrong: the flush
      completes, `CloseStream` is sent, and only then the message is queued and sent. */
  lemma {:induction false} SendRace(s: System, prioOf: nat -> nat, peer: set<nat>) returns (moves: seq<Move>)
    requires Inv(s) && Can(s, TakeLeftover, prioOf, peer) && s.framesPerTick > 0
    requires var sid := s.closeMgr.todo[0];
      prioOf(sid) < PRIO_MAX && sid in s.handles && s.handles[sid].inFlight.Some? && s.handles[sid].inFlight.value != []
    ensures var a := Do(s, TakeLeftover, prioOf, peer);
      Legal(a, moves, prioOf, peer) && !InOrder(After(a, moves, prioOf, peer).wire)
  {
    var sid, id := s.closeMgr.todo[0], s.nextId;
    var a := Do(s, TakeLeftover, prioOf, peer);
    assert a.handles[sid].inFlight == s.handles[sid].inFlight;
    NobodyElse(a.prios.owned, id);
    FirstTick(a, sid, id, prioOf, peer);
    LegalOne(a, Tick, prioOf, peer);
    hide Inv, Ok, Legal, After, Waiting, InOrder, DoTick;
    var u := Do(a, Tick, prioOf, peer);
    var ticks := Drain(u, sid, id, prioOf, peer);
    var v := After(u, ticks, prioOf, peer);
    var late := CloseAndPush(v, sid, prioOf, peer);
    LegalConcat(u, ticks, late, prioOf, peer);
    LegalConcat(a, [Tick], ticks + late, prioOf, peer);
    return [Tick] + (ticks + late);
  }

  lemma {:induction false} CloseAndPush(v: System, sid: nat, prioOf: nat -> nat, peer: set<nat>)
    returns (moves: seq<Move>)
    requires Ok(v) && v.sendMgr.Looping? && v.shutdownMgr.AwaitClosed? && v.framesPerTick > 0
    requires v.prios.queued == {} && v.messagesRx == [] && v.flushedRx == []
    requires v.closeMgr.Flushing? && v.closeMgr.sid == sid && v.closeMgr.id in v.told
    requires prioOf(sid) < PRIO_MAX && sid in v.handles &&
      v.handles[sid].inFlight.Some? && v.handles[sid].inFlight.value != []
    ensures Legal(v, moves, prioOf, peer) && !InOrder(After(v, moves, prioOf, peer).wire)
  {
    hide Valid, InOrder, Legal, After;
    var w := Do(v, FinishClose, prioOf, peer);
    LegalOne(v, FinishClose, prioOf, peer);
    assert w.wire[|v.wire|].1 == CloseStream(sid);
    var x := Do(w, SendPush(sid), prioOf, peer);
    LegalOne(w, SendPush(sid), prioOf, peer);
    var ticks := LateTicks(x, x.messagesRx[0], prioOf, peer);
    LegalConcat(w, [SendPush(sid)], ticks, prioOf, peer);
    LegalConcat(v, [FinishClose], [SendPush(sid)] + ticks, prioOf, peer);
    return [FinishClose] + ([SendPush(sid)] + ticks);
  }

  /** Exactly which moves may be made: whatever happens after a move keeps the order if and
      only if the move does not take a leftover stream down while a send of a non-empty
      message on it is under way. */
  lemma OrderExact(s: System, m: Move, prioOf: nat -> nat, peer: set<nat>)
    requires Inv(s) && Can(s, m, prioOf, peer) && s.framesPerTick > 0
    requires forall sid :: sid in s.handles ==> prioOf(sid) < PRIO_MAX
    ensures Orderly(s, m) <==>
      forall moves :: Legal(Do(s, m, prioOf, peer), moves, prioOf, peer) ==>
        InOrder(After(Do(s, m, prioOf, peer), moves, prioOf, peer).wire)
  {
    var a := Do(s, m, prioOf, peer);
    if Orderly(s, m) {
      KeepInv(s, m, prioOf, peer);
      hide Do, Can, Ok, HandlesOk, IdsOk, PhasesOk, InOrder;
      forall moves | Legal(a, moves, prioOf, peer)
        ensures InOrder(After(a, moves, prioOf, peer).wire)
      {
        RunInv(a, moves, prioOf, peer);
      }
    } else {
      var moves := SendRace(s, prioOf, peer);
    }
  }

  lemma KeepPrios(s: System, m: Move, prioOf: nat -> nat, peer: set<nat>)
    requires Can(s, m, prioOf, peer) && forall sid :: sid in s.handles ==> prioOf(sid) < PRIO_MAX
    ensures forall sid :: sid in Do(s, m, prioOf, peer).handles ==> prioOf(sid) < PRIO_MAX
    ensures Do(s, m, prioOf, peer).framesPerTick == s.framesPerTick
  {
    hide Ok, Filled, Taken;
  }

  lemma {:induction false} RunPrios(s: System, moves: seq<Move>, prioOf: nat -> nat, peer: set<nat>)
    requires Legal(s, moves, prioOf, peer) && forall sid :: sid in s.handles ==> prioOf(sid) < PRIO_MAX
    ensures forall sid :: sid in After(s, moves, prioOf, peer).handles ==> prioOf(sid) < PRIO_MAX
    ensures After(s, moves, prioOf, peer).framesPerTick == s.framesPerTick
    decreases |moves|
  {
    hide Can, Do, Orderly;
    if moves != [] {
      KeepPrios(s, moves[0], prioOf, peer);
      RunPrios(Do(s, moves[0], prioOf, peer), moves[1..], prioOf, peer);
    }
  }

  /** So it is for every move after every run from the start. */
  lemma OrderExactAlways(offset: nat, n: nat, moves: seq<Move>, m: Move, prioOf: nat -> nat, peer: set<nat>)
    requires n > 0 && Legal(Start(offset, n), moves, prioOf, peer)
    requires Can(After(Start(offset, n), moves, prioOf, peer), m, prioOf, peer)
    ensures var s := After(Start(offset, n), moves, prioOf, peer);
      Orderly(s, m) <==>
        forall more :: Legal(Do(s, m, prioOf, peer), more, prioOf, peer) ==>
          InOrder(After(Do(s, m, prioOf, peer), more, prioOf, peer).wire)
  {
    StartInv(offset, n);
    RunInv(Start(offset, n), moves, prioOf, peer);
    RunPrios(Start(offset, n), moves, prioOf, peer);
    hide Inv, Can, Do, Orderly, InOrder, Legal;
    OrderExact(After(Start(offset, n), moves, prioOf, peer), m, prioOf, peer);
  }

  // ----- it can happen

  /** A send passes its check, and the participant shuts down. */
  function RaceMoves(data: seq<byte>): seq<Move> {
    [Open, SendCheck(0, data), ShutdownRequest, TakeShutdown([0])]
  }

  /** From the start, for every message, such a state is reached by an orderly run. */
  lemma RaceIsReached(data: seq<byte>, n: nat, prioOf: nat -> nat)
    requires prioOf(0) < PRIO_MAX
    ensures Legal(Start(0, n), RaceMoves(data), prioOf, {})
    ensures var s := After(Start(0, n), RaceMoves(data), prioOf, {});
      Inv(s) && LeftBehind(s, data, n, prioOf)
  {
    StartInv(0, n);
    RaceSteps(data, n, prioOf);
    hide *;
    var start := Start(0, n);
    var born := Do(start, Open, prioOf, {});
    var sending := Do(born, SendCheck(0, data), prioOf, {});
    var closing := Do(sending, ShutdownRequest, prioOf, {});
    LegalOne(start, Open, prioOf, {});
    LegalOne(born, SendCheck(0, data), prioOf, {});
    LegalOne(sending, ShutdownRequest, prioOf, {});
    LegalOne(closing, TakeShutdown([0]), prioOf, {});
    LegalConcat(sending, [ShutdownRequest], [TakeShutdown([0])], prioOf, {});
    LegalConcat(born, [SendCheck(0, data)], [ShutdownRequest] + [TakeShutdown([0])], prioOf, {});
    LegalConcat(start, [Open], [SendCheck(0, data)] + ([ShutdownRequest] + [TakeShutdown([0])]), prioOf, {});
    RunInv(start, RaceMoves(data), prioOf, {});
  }

  lemma RaceSteps(data: seq<byte>, n: nat, prioOf: nat -> nat)
    requires prioOf(0) < PRIO_MAX
    ensures var start := Start(0, n);
      && Can(start, Open, prioOf, {}) && Orderly(start, Open)
      && var born := Do(start, Open, prioOf, {});
      && Can(born, SendCheck(0, data), prioOf, {}) && Orderly(born, SendCheck(0, data))
      && var sending := Do(born, SendCheck(0, data), prioOf, {});
      && Can(sending, ShutdownRequest, prioOf, {}) && Orderly(sending, ShutdownRequest)
      && var closing := Do(sending, ShutdownRequest, prioOf, {});
      && Can(closing, TakeShutdown([0]), prioOf, {}) && Orderly(closing, TakeShutdown([0]))
      && LeftBehind(Do(closing, TakeShutdown([0]), prioOf, {}), data, n, prioOf)
    ensures RaceMoves(data) == [Open] + ([SendCheck(0, data)] + ([ShutdownRequest] + [TakeShutdown([0])]))
  {
    InitialValid();
    hide Valid, LeftBehind;
    var sending := Do(Do(Start(0, n), Open, prioOf, {}), SendCheck(0, data), prioOf, {});
    assert sending.handles == map[0 := Stream(0, false, true, Some(data))];
    RaceEnds(sending, data, n, prioOf);
  }

  /** The only stream is to be taken down, and `data` is under way on it. */
  ghost predicate LeftBehind(s: System, data: seq<byte>, n: nat, prioOf: nat -> nat) {
    && Can(s, TakeLeftover, prioOf, {})
    && s.closeMgr.todo == [0] && 0 in s.handles && s.handles[0].inFlight == Some(data) && s.framesPerTick == n
  }

  lemma RaceEnds(s: System, data: seq<byte>, n: nat, prioOf: nat -> nat)
    requires Ok(s) && s.shutdownMgr.Running? && s.closeMgr.Serving? && s.framesPerTick == n
    requires s.streams == {0} && s.handles == map[0 := Stream(0, false, true, Some(data))]
    ensures Can(s, ShutdownRequest, prioOf, {})
    ensures var closing := Do(s, ShutdownRequest, prioOf, {});
      Can(closing, TakeShutdown([0]), prioOf, {}) &&
      LeftBehind(Do(closing, TakeShutdown([0]), prioOf, {}), data, n, prioOf)
  {
    hide Valid;
  }
}
