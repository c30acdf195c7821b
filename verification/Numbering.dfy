/** What a participant has put on the wire of one stream, whatever else it has done: the messages
    accepted on it, one after the other, each under a number of its own. */
module Numbering {
  import opened Frames
  import opened Prios
  import opened Receiving
  import opened Delivering
  import opened Participants
  import opened Closing
  import opened Cutting

  function Buffers(msgs: seq<OutgoingMessage>): seq<seq<byte>> {
    if msgs == [] then [] else Buffers(msgs[..|msgs| - 1]) + [msgs[|msgs| - 1].buffer]
  }

  /** Later messages have higher numbers, all below `next`. */
  ghost predicate Rising(msgs: seq<OutgoingMessage>, next: nat) {
    && (forall i :: 0 <= i < |msgs| ==> msgs[i].mid < next)
    && forall i, j :: 0 <= i < j < |msgs| ==> msgs[i].mid < msgs[j].mid
  }

  /** What waits for the scheduler of stream `sid` is the stream's. */
  ghost predicate RoutedFor(subs: seq<Submission>, p: nat, sid: nat) {
    forall i :: 0 <= i < |subs| && subs[i].sid == sid ==> subs[i].prio == p && subs[i].msg.sid == sid
  }

  function NextMid(s: System, sid: nat): nat {
    if sid in s.handles then s.handles[sid].mid else 0
  }

  /** `msgs` are the messages of the stream that the scheduler has taken in. */
  ghost predicate Told(s: System, msgs: seq<OutgoingMessage>, prioOf: nat -> nat, sid: nat) {
    && Sending(s.prios, Of(s.wire, sid), msgs, prioOf(sid), sid)
    && Buffers(msgs) == Received(s.taken, sid)
    && ValidSubmissions(s.messagesRx) && RoutedFor(s.messagesRx, prioOf(sid), sid)
    && Rising(msgs + SubmittedIn(s.messagesRx, sid), NextMid(s, sid))
  }

  // ----- the tick

  lemma {:induction false} BuffersConcat(a: seq<OutgoingMessage>, b: seq<OutgoingMessage>)
    ensures Buffers(a + b) == Buffers(a) + Buffers(b)
    decreases |b|
  {
    if b == [] {
      NoneAfter(a);
    } else {
      var n := |b| - 1;
      assert (a + b)[..|a + b| - 1] == a + b[..n];
      BuffersConcat(a, b[..n]);
    }
  }

  /** The payloads of a batch that are the stream's. */
  lemma {:induction false} PayloadsAre(subs: seq<Submission>, sid: nat)
    ensures Received(Payloads(subs), sid) == Buffers(SubmittedIn(subs, sid))
  {
    if subs != [] {
      var n := |subs| - 1;
      var sub := subs[n];
      PayloadsAre(subs[..n], sid);
      hide Received, Buffers;
      if sub.msg.buffer == [] {
        NoneAfter(Payloads(subs[..n]));
        NoneAfter(SubmittedIn(subs[..n], sid));
      } else {
        DeliverOne(Payloads(subs[..n]), Delivery(sub.sid, sub.msg.buffer), sid);
        BuffersMore(SubmittedIn(subs[..n], sid), sub.msg);
        NoneAfter(SubmittedIn(subs[..n], sid));
        NoneAfter(Buffers(SubmittedIn(subs[..n], sid)));
      }
    }
  }

  lemma BuffersMore(msgs: seq<OutgoingMessage>, m: OutgoingMessage)
    ensures Buffers(msgs + [m]) == Buffers(msgs) + [m.buffer]
  {
    assert (msgs + [m])[..|msgs|] == msgs;
  }

  lemma {:induction false} EnqueueAllFor(s: State, fs: seq<Frame>, msgs: seq<OutgoingMessage>,
                                         subs: seq<Submission>, p: nat, sid: nat)
    requires Sending(s, fs, msgs, p, sid) && ValidSubmissions(subs) && RoutedFor(subs, p, sid)
    ensures Sending(EnqueueAll(s, subs), fs, msgs + SubmittedIn(subs, sid), p, sid)
  {
    SendingValid(s, fs, msgs, p, sid);
    hide Sending, Valid;
    if subs == [] {
      NoneAfter(msgs);
    } else {
      var n := |subs| - 1;
      EnqueueAllFor(s, fs, msgs, subs[..n], p, sid);
      EnqueueSending(EnqueueAll(s, subs[..n]), fs, msgs + SubmittedIn(subs[..n], sid), subs[n], p, sid);
      SubmittedOne(subs[n], sid);
      Joined(msgs, SubmittedIn(subs[..n], sid), SubmittedIn([subs[n]], sid));
    }
  }

  lemma {:induction false} FillSending(s: State, n: nat, fs: seq<Frame>, msgs: seq<OutgoingMessage>, p: nat, sid: nat)
    requires Sending(s, fs, msgs, p, sid)
    ensures Valid(s)
    ensures Sending(Fill(s, n).state, fs + Of(Fill(s, n).frames, sid), msgs, p, sid)
    decreases n
  {
    hide Sending, Valid, Fill, ServePrio, Next, Servable, Of;
    SendingValid(s, fs, msgs, p, sid);
    SendingReset(s, fs, msgs, p, sid);
    FillUnfold(s, n);
    OfNone(sid);
    NoneAfter(fs);
    if n > 0 && Next(s).Some? {
      NextQueued(s);
      var o := ServePrio(s, Next(s).value);
      ServeSending(s, fs, msgs, Next(s).value, p, sid);
      FillSending(o.state, n - 1, fs + Of(o.frames, sid), msgs, p, sid);
      OfConcat(o.frames, Fill(o.state, n - 1).frames, sid);
      Joined(fs, Of(o.frames, sid), Of(Fill(o.state, n - 1).frames, sid));
    }
  }

  lemma NextQueued(s: State)
    requires Valid(s)
    ensures |s.points| == PRIO_MAX && (Next(s).Some? ==> Next(s).value in s.queued)
  {
    NextIsNext(s);
  }

  lemma OfNone(sid: nat)
    ensures Of([], sid) == []
  {
  }

  lemma SendingReset(s: State, fs: seq<Frame>, msgs: seq<OutgoingMessage>, p: nat, sid: nat)
    requires Sending(s, fs, msgs, p, sid)
    ensures Sending(s.(points := Zeros()), fs, msgs, p, sid)
  {
    Shape(s);
    hide Cut, Placed, Progress, Waiting;
  }

  lemma TickSending(s: System, msgs: seq<OutgoingMessage>, p: nat, sid: nat)
    requires Ok(s) && Sending(s.prios, Of(s.wire, sid), msgs, p, sid) && RoutedFor(s.messagesRx, p, sid)
    ensures Sending(DoTick(s).prios, Of(DoTick(s).wire, sid), msgs + SubmittedIn(s.messagesRx, sid), p, sid)
  {
    hide Sending, Valid, Fill, Of, Take, EnqueueAll, RoutedFor;
    var more := SubmittedIn(s.messagesRx, sid);
    Shape(s.prios);
    TakeValid(s.prios, s.messagesRx, s.flushedRx);
    EnqueueAllFor(s.prios, Of(s.wire, sid), msgs, s.messagesRx, p, sid);
    SendingOwned(EnqueueAll(s.prios, s.messagesRx), Taken(s).state, Of(s.wire, sid), msgs + more, p, sid);
    FillSending(Taken(s).state, s.framesPerTick, Of(s.wire, sid), msgs + more, p, sid);
    OfConcat(s.wire, Filled(s).frames, sid);
  }

  lemma TickBuffers(s: System, msgs: seq<OutgoingMessage>, sid: nat)
    requires Ok(s) && Buffers(msgs) == Received(s.taken, sid)
    ensures Buffers(msgs + SubmittedIn(s.messagesRx, sid)) == Received(DoTick(s).taken, sid)
  {
    hide Buffers, Received, Payloads, SubmittedIn, Valid, Taken, Filled;
    PayloadsAre(s.messagesRx, sid);
    BuffersConcat(msgs, SubmittedIn(s.messagesRx, sid));
    ReceivedConcat(s.taken, Payloads(s.messagesRx), sid);
  }

  lemma TickTold(s: System, msgs: seq<OutgoingMessage>, prioOf: nat -> nat, sid: nat)
    requires Ok(s) && Told(s, msgs, prioOf, sid)
    ensures Told(DoTick(s), msgs + SubmittedIn(s.messagesRx, sid), prioOf, sid)
  {
    hide Sending, Valid, Fill, Received, Buffers, Rising, Of, Taken, Filled;
    TickSending(s, msgs, prioOf(sid), sid);
    TickBuffers(s, msgs, sid);
    NoneAfter(msgs + SubmittedIn(s.messagesRx, sid));
    assert SubmittedIn([], sid) == [];
  }

  /** Who is to be told makes no difference. */
  lemma SendingOwned(s: State, t: State, fs: seq<Frame>, msgs: seq<OutgoingMessage>, p: nat, sid: nat)
    requires Sending(s, fs, msgs, p, sid) && Valid(t) && t == s.(owned := t.owned)
    ensures Sending(t, fs, msgs, p, sid)
  {
    hide Cut, Placed, Progress, Waiting;
  }

  // ----- the other moves

  lemma RisingMore(msgs: seq<OutgoingMessage>, m: OutgoingMessage)
    requires Rising(msgs, m.mid)
    ensures Rising(msgs + [m], m.mid + 1) && Rising(msgs, m.mid + 1)
  {
  }

  /** A submission of the stream gets the next number. */
  lemma PushRising(msgs: seq<OutgoingMessage>, subs: seq<Submission>, sub: Submission, sid: nat)
    requires Rising(msgs + SubmittedIn(subs, sid), if sub.sid == sid then sub.msg.mid else 0) || sub.sid != sid
    ensures sub.sid == sid ==> Rising(msgs + SubmittedIn(subs + [sub], sid), sub.msg.mid + 1)
    ensures sub.sid != sid ==> SubmittedIn(subs + [sub], sid) == SubmittedIn(subs, sid)
  {
    assert (subs + [sub])[..|subs|] == subs;
    NoneAfter(SubmittedIn(subs, sid));
    if sub.sid == sid {
      RisingMore(msgs + SubmittedIn(subs, sid), sub.msg);
      Joined(msgs, SubmittedIn(subs, sid), [sub.msg]);
    }
  }

  lemma PushTold(s: System, msgs: seq<OutgoingMessage>, from: nat, prioOf: nat -> nat, peer: set<nat>, sid: nat)
    requires Can(s, SendPush(from), prioOf, peer) && Told(s, msgs, prioOf, sid)
    ensures Told(Do(s, SendPush(from), prioOf, peer), msgs, prioOf, sid)
  {
    hide Sending, Received, Buffers, Of, Ok, Rising, SubmittedIn;
    if !s.sendMgr.Stopped? {
      var h := s.handles[from];
      var sub := Submission(prioOf(from), from, OutgoingMessage(h.inFlight.value, 0, h.mid, from));
      PushRising(msgs, s.messagesRx, sub, sid);
    }
  }

  lemma OtherTold(s: System, m: Move, msgs: seq<OutgoingMessage>, prioOf: nat -> nat, peer: set<nat>, sid: nat)
    requires Can(s, m, prioOf, peer) && Told(s, msgs, prioOf, sid) && !m.Tick? && !m.SendPush?
    ensures Told(Do(s, m, prioOf, peer), msgs, prioOf, sid)
  {
    hide Ok, Sending, Received, Buffers, Rising, Of, SubmittedIn, Valid;
    OtherWire(s, m, prioOf, peer, sid);
    if msgs + SubmittedIn(s.messagesRx, sid) != [] {
      NotFresh(msgs + SubmittedIn(s.messagesRx, sid), NextMid(s, sid));
    }
  }

  lemma NotFresh(msgs: seq<OutgoingMessage>, next: nat)
    requires msgs != [] && Rising(msgs, next)
    ensures next > 0
  {
    assert msgs[0].mid < next;
  }

  lemma OtherWire(s: System, m: Move, prioOf: nat -> nat, peer: set<nat>, sid: nat)
    requires Can(s, m, prioOf, peer) && !m.Tick?
    ensures Of(Do(s, m, prioOf, peer).wire, sid) == Of(s.wire, sid)
  {
    hide Ok, Of, DoTick;
    var w := Do(s, m, prioOf, peer).wire;
    if w != s.wire {
      assert w == s.wire + [w[|s.wire|]];
      OfConcat(s.wire, [w[|s.wire|]], sid);
      OfOne(w[|s.wire|], sid);
      NoneAfter(Of(s.wire, sid));
    }
  }

  // ----- whole runs

  lemma StepTold(s: System, m: Move, msgs: seq<OutgoingMessage>, prioOf: nat -> nat, peer: set<nat>, sid: nat)
    requires Can(s, m, prioOf, peer) && Told(s, msgs, prioOf, sid)
    ensures Told(Do(s, m, prioOf, peer), msgs + (if m.Tick? then SubmittedIn(s.messagesRx, sid) else []), prioOf, sid)
  {
    hide Told, Ok, DoTick;
    NoneAfter(msgs);
    match m
    case Tick => TickTold(s, msgs, prioOf, sid);
    case SendPush(from) => PushTold(s, msgs, from, prioOf, peer, sid);
    case _ => OtherTold(s, m, msgs, prioOf, peer, sid);
  }

  lemma {:induction false} RunTold(s: System, moves: seq<Move>, msgs: seq<OutgoingMessage>, prioOf: nat -> nat,
                                   peer: set<nat>, sid: nat) returns (all: seq<OutgoingMessage>)
    requires Legal(s, moves, prioOf, peer) && Told(s, msgs, prioOf, sid)
    ensures Told(After(s, moves, prioOf, peer), all, prioOf, sid)
    decreases |moves|
  {
    hide Told, Can, Do, Orderly;
    all := msgs;
    if moves != [] {
      StepTold(s, moves[0], msgs, prioOf, peer, sid);
      var more := if moves[0].Tick? then SubmittedIn(s.messagesRx, sid) else [];
      all := RunTold(Do(s, moves[0], prioOf, peer), moves[1..], msgs + more, prioOf, peer, sid);
    }
  }

  lemma StartTold(offset: nat, n: nat, prioOf: nat -> nat, sid: nat)
    requires prioOf(sid) < PRIO_MAX
    ensures Told(Start(offset, n), [], prioOf, sid)
  {
    InitialValid();
  }

  /** In every run of a participant, what has been sent of a stream are the messages taken in from
      it, cut at their places one after the other, and no two messages of the stream, sent or
      still waiting, have the same number: later ones have higher numbers. */
  lemma WireOfStream(offset: nat, n: nat, moves: seq<Move>, prioOf: nat -> nat, peer: set<nat>, sid: nat)
    returns (msgs: seq<OutgoingMessage>)
    requires Legal(Start(offset, n), moves, prioOf, peer) && prioOf(sid) < PRIO_MAX
    ensures var s := After(Start(offset, n), moves, prioOf, peer);
      && Cut(Of(s.wire, sid), msgs, sid)
      && Buffers(msgs) == Received(s.taken, sid)
      && Rising(msgs + SubmittedIn(s.messagesRx, sid), NextMid(s, sid))
  {
    StartTold(offset, n, prioOf, sid);
    msgs := RunTold(Start(offset, n), moves, [], prioOf, peer, sid);
    hide Cut, Of, Buffers, Received, Rising, SubmittedIn, NextMid, Legal, After;
  }
}
