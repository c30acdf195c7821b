/** What the API may count on: an open stream takes messages, a closed one takes no more. */
module Sends {
  import opened Frames
  import opened Prios
  import opened Receiving
  import opened Delivering
  import opened Filling
  import opened Participants
  import opened Closing
  import opened Racing

  // ----- an open stream

  /** Nothing keeps the API from sending on the stream. */
  predicate Usable(s: System, sid: nat) {
    && sid in s.streams && sid in s.handles && !s.sendMgr.Stopped?
    && !s.handles[sid].closed && s.handles[sid].alive && s.handles[sid].inFlight.None?
  }

  /** An opened stream can be sent on, whichever side opened it. */
  lemma OpenedIsUsable(s: System, m: Move, prioOf: nat -> nat, peer: set<nat>)
    requires Inv(s) && Can(s, m, prioOf, peer) && !s.sendMgr.Stopped?
    requires m.Open? || m.RemoteOpen?
    ensures var sid := if m.Open? then s.nextSid else m.sid; var t := Do(s, m, prioOf, peer);
      Usable(t, sid) && t.handles[sid].mid == 0
  {
    hide Ok;
  }

  /** A send on it is accepted: the message comes last of all accepted ones. */
  lemma SendIsAccepted(s: System, sid: nat, data: seq<byte>, prioOf: nat -> nat, peer: set<nat>)
    requires Ok(s) && Usable(s, sid) && prioOf(sid) < PRIO_MAX
    ensures Legal(s, [SendCheck(sid, data), SendPush(sid)], prioOf, peer)
    ensures var t := After(s, [SendCheck(sid, data), SendPush(sid)], prioOf, peer);
      && t.Accepted() == s.Accepted() + (if data == [] then [] else [Delivery(sid, data)])
      && Usable(t, sid) && t.handles[sid].mid == s.handles[sid].mid + 1
      && t.messagesRx != [] && t.messagesRx[|t.messagesRx| - 1].msg.mid == s.handles[sid].mid
  {
    var u := Do(s, SendCheck(sid, data), prioOf, peer);
    LegalOne(s, SendCheck(sid, data), prioOf, peer);
    LegalOne(u, SendPush(sid), prioOf, peer);
    LegalConcat(s, [SendCheck(sid, data)], [SendPush(sid)], prioOf, peer);
    assert [SendCheck(sid, data), SendPush(sid)] == [SendCheck(sid, data)] + [SendPush(sid)];
    var t := Do(u, SendPush(sid), prioOf, peer);
    assert t.messagesRx[..|t.messagesRx| - 1] == s.messagesRx;
    hide Ok, Legal, After;
    assert t.Accepted() == s.taken + (Payloads(s.messagesRx) + if data == [] then [] else [Delivery(sid, data)]);
  }

  // ----- a closed one

  /** No more than the send under way is accepted from `s` on. */
  ghost predicate NoMore(s: System, t: System, sid: nat) {
    && sid in s.handles && sid in t.handles && t.handles[sid].closed
    && (t.handles[sid].inFlight.None? || t.handles[sid].inFlight == s.handles[sid].inFlight)
    && (Received(t.Accepted(), sid) == Received(s.Accepted(), sid) ||
        (t.handles[sid].inFlight.None? && s.handles[sid].inFlight.Some? &&
         Received(t.Accepted(), sid) == Received(s.Accepted(), sid) + [s.handles[sid].inFlight.value]))
  }

  lemma StepNoMore(s: System, m: Move, prioOf: nat -> nat, peer: set<nat>, sid: nat)
    requires Can(s, m, prioOf, peer) && sid in s.handles && s.handles[sid].closed
    ensures NoMore(s, Do(s, m, prioOf, peer), sid)
    ensures sid !in s.streams ==> sid !in Do(s, m, prioOf, peer).streams
  {
    hide Ok, Received, Payloads, Taken, Filled;
    if m.Tick? {
      AllTaken(s);
    } else if m.SendPush? && !s.sendMgr.Stopped? {
      var h := s.handles[m.sid];
      PushAccepted(s, Submission(prioOf(m.sid), m.sid, OutgoingMessage(h.inFlight.value, 0, h.mid, m.sid)), sid);
    }
  }

  lemma AllTaken(s: System)
    requires Ok(s)
    ensures DoTick(s).Accepted() == s.Accepted()
  {
    hide Ok, Taken, Filled;
    assert Payloads([]) == [];
  }

  lemma PushAccepted(s: System, sub: Submission, sid: nat)
    ensures var t := s.taken + Payloads(s.messagesRx + [sub]);
      Received(t, sid) == Received(s.Accepted(), sid) +
                          if sub.sid == sid && sub.msg.buffer != [] then [sub.msg.buffer] else []
  {
    hide Received;
    assert (s.messagesRx + [sub])[..|s.messagesRx|] == s.messagesRx;
    var d := if sub.msg.buffer == [] then [] else [Delivery(sub.sid, sub.msg.buffer)];
    assert s.taken + Payloads(s.messagesRx + [sub]) == s.Accepted() + d;
    if d != [] {
      DeliverOne(s.Accepted(), Delivery(sub.sid, sub.msg.buffer), sid);
    } else {
      assert s.Accepted() + [] == s.Accepted();
    }
  }

  lemma NoMoreOn(s: System, t: System, u: System, sid: nat)
    requires NoMore(s, t, sid) && NoMore(t, u, sid)
    ensures NoMore(s, u, sid)
  {
    hide Received;
  }

  lemma {:induction false} RunNoMore(s: System, moves: seq<Move>, prioOf: nat -> nat, peer: set<nat>, sid: nat)
    requires Legal(s, moves, prioOf, peer) && sid in s.handles && s.handles[sid].closed
    ensures NoMore(s, After(s, moves, prioOf, peer), sid)
    ensures sid !in s.streams ==> sid !in After(s, moves, prioOf, peer).streams
    decreases |moves|
  {
    hide Can, Do, Received, Orderly;
    if moves != [] {
      StepNoMore(s, moves[0], prioOf, peer, sid);
      RunNoMore(Do(s, moves[0], prioOf, peer), moves[1..], prioOf, peer, sid);
      NoMoreOn(s, Do(s, moves[0], prioOf, peer), After(s, moves, prioOf, peer), sid);
    }
  }

  /** Once the peer has closed a stream, or either side has begun to shut down, nothing more is
      ever accepted on it but a send that had passed its check; and a stream the peer has
      closed is off the table for good. */
  lemma NothingAfterClose(s: System, m: Move, moves: seq<Move>, prioOf: nat -> nat, peer: set<nat>, sid: nat)
    requires Inv(s) && Can(s, m, prioOf, peer) && sid in s.streams
    requires m == RemoteClose(sid) || m.RemoteShutdown? || m.ShutdownRequest?
    requires Legal(Do(s, m, prioOf, peer), moves, prioOf, peer)
    ensures var t := After(Do(s, m, prioOf, peer), moves, prioOf, peer);
      && NoMore(s, t, sid)
      && (m == RemoteClose(sid) ==> sid !in t.streams)
  {
    MoveCloses(s, m, prioOf, peer, sid);
    hide Inv, Can, Do, NoMore, Received;
    RunNoMore(Do(s, m, prioOf, peer), moves, prioOf, peer, sid);
    NoMoreOn(s, Do(s, m, prioOf, peer), After(Do(s, m, prioOf, peer), moves, prioOf, peer), sid);
  }

  lemma MoveCloses(s: System, m: Move, prioOf: nat -> nat, peer: set<nat>, sid: nat)
    requires Inv(s) && Can(s, m, prioOf, peer) && sid in s.streams
    requires m == RemoteClose(sid) || m.RemoteShutdown? || m.ShutdownRequest?
    ensures var t := Do(s, m, prioOf, peer);
      && NoMore(s, t, sid) && t.handles[sid].closed
      && (m == RemoteClose(sid) ==> sid !in t.streams)
  {
    hide Ok, Received;
  }

  // ----- a peer that has shut down

  predicate Announces(f: TaggedFrame) {
    f.1.OpenStream? || f.1.Shutdown?
  }

  lemma StepSilent(s: System, m: Move, prioOf: nat -> nat, peer: set<nat>)
    requires Inv(s) && Can(s, m, prioOf, peer) && s.disconnected
    ensures var t := Do(s, m, prioOf, peer);
      && t.disconnected && s.wire <= t.wire
      && forall i :: |s.wire| <= i < |t.wire| ==> !Announces(t.wire[i])
  {
    if m.Tick? {
      FillTags(Taken(s).state, s.framesPerTick);
    }
    hide Ok, Taken, Filled;
  }

  /** Once the peer has shut down, neither a new stream nor a `Shutdown` is announced to it. */
  lemma {:induction false} NothingAnnounced(s: System, moves: seq<Move>, prioOf: nat -> nat, peer: set<nat>)
    requires Inv(s) && Legal(s, moves, prioOf, peer) && s.disconnected
    ensures var t := After(s, moves, prioOf, peer);
      s.wire <= t.wire && forall i :: |s.wire| <= i < |t.wire| ==> !Announces(t.wire[i])
    decreases |moves|
  {
    hide Inv, Can, Do, Orderly;
    if moves != [] {
      KeepInv(s, moves[0], prioOf, peer);
      StepSilent(s, moves[0], prioOf, peer);
      hide Announces;
      NothingAnnounced(Do(s, moves[0], prioOf, peer), moves[1..], prioOf, peer);
    }
  }
}
