/** The closing protocol over the bytes of a TCP connection: what the peer holds of a stream
    when it decodes its `CloseStream`, wherever the bytes break off, and whatever streams
    the peer itself closes meanwhile. */
module ClosingBytes {
  import opened Frames
  import opened Prios
  import opened Receiving
  import opened Delivering
  import opened Participants
  import opened Closing
  import opened Bytes
  import opened Wire
  import opened EndToEnd

  // ----- a peer that closes streams itself

  /** Before frame `i` the peer has taken the streams `gone[i]` off its table. */
  function HandleBetween(r: Receiver, fs: seq<TaggedFrame>, gone: seq<set<nat>>): Receiver
    requires AllForParticipant(fs) && |gone| == |fs|
  {
    if fs == [] then r
    else
      var n := |fs| - 1;
      var r' := HandleBetween(r, fs[..n], gone[..n]);
      Handle(r'.(open := r'.open - gone[n]), fs[n].1)
  }

  ghost predicate Stays(gone: seq<set<nat>>, sid: nat) {
    forall i :: 0 <= i < |gone| ==> sid !in gone[i]
  }

  /** Two receivers that are the same to stream `sid`. */
  ghost predicate Alike(a: Receiver, b: Receiver, sid: nat) {
    && a.partial == b.partial
    && (sid in a.open <==> sid in b.open)
    && Received(a.log, sid) == Received(b.log, sid)
  }

  lemma HandleAlike(a: Receiver, b: Receiver, f: Frame, sid: nat)
    requires ForParticipant(f) && Alike(a, b, sid)
    ensures Alike(Handle(a, f), Handle(b, f), sid)
  {
    if f.Data? && f.mid in a.partial {
      var m := a.partial[f.mid];
      DeliverOne(a.log, Delivery(m.sid, m.buffer + f.data), sid);
      DeliverOne(b.log, Delivery(m.sid, m.buffer + f.data), sid);
    }
  }

  /** A stream the peer does not close is none the worse for those it does. */
  lemma {:induction false} OthersGone(r: Receiver, fs: seq<TaggedFrame>, gone: seq<set<nat>>, sid: nat)
    requires AllForParticipant(fs) && |gone| == |fs| && Stays(gone, sid)
    ensures Alike(HandleBetween(r, fs, gone), HandleAll(r, fs), sid)
  {
    if fs != [] {
      var n := |fs| - 1;
      OthersGone(r, fs[..n], gone[..n], sid);
      hide Handle, Received;
      var a := HandleBetween(r, fs[..n], gone[..n]);
      HandleAlike(a.(open := a.open - gone[n]), HandleAll(r, fs[..n]), fs[n].1, sid);
    }
  }

  // ----- every frame of a run can be sent

  ghost predicate HandleSized(h: Stream, k: nat) {
    h.mid <= k && (h.inFlight.Some? ==> |h.inFlight.value| < Pow256(8))
  }

  /** After `k` moves stream ids, message ids and lengths are 64-bit numbers. */
  ghost predicate SizedSystem(s: System, top: nat, k: nat) {
    && s.nextSid <= top + k
    && (forall sid :: sid in s.handles ==> sid < Pow256(8) && HandleSized(s.handles[sid], k))
    && (forall i :: 0 <= i < |s.messagesRx| ==> Sized(s.messagesRx[i]))
    && SizedQueues(s.prios.messages)
    && Sendable(Untag(s.wire))
  }

  /** The API and the peer name nothing beyond 64 bits. */
  predicate SizedMove(m: Move) {
    match m
    case SendCheck(_, data) => |data| < Pow256(8)
    case RemoteOpen(sid) => sid < Pow256(8)
    case _ => true
  }

  lemma {:induction false} FillSized(s: State, n: nat)
    requires Valid(s) && SizedQueues(s.messages)
    ensures SizedQueues(Fill(s, n).state.messages) && Sendable(Untag(Fill(s, n).frames))
    decreases n
  {
    hide *;
    FillUnfold(s, n);
    if n > 0 && Next(s).Some? {
      var o := ServePrio(s, Next(s).value);
      ServeSized(s, Next(s).value);
      FillSized(o.state, n - 1);
      SendableConcat(o.frames, Fill(o.state, n - 1).frames);
    } else {
      NoneSendable();
    }
  }

  lemma TickSized(s: System, top: nat, k: nat)
    requires Ok(s) && SizedSystem(s, top, k)
    ensures SizedSystem(DoTick(s), top, k)
  {
    Shape(s.prios);
    TakeValid(s.prios, s.messagesRx, s.flushedRx);
    EnqueueAllSized(s.prios, s.messagesRx);
    FillSized(Taken(s).state, s.framesPerTick);
    SendableConcat(s.wire, Filled(s).frames);
    hide Valid, SizedQueues, Sendable, Pow256;
  }

  lemma OneSendable(wire: seq<TaggedFrame>, f: TaggedFrame)
    requires Sendable(Untag(wire)) && Typed(f.1) && Transmissible(f.1)
    ensures Sendable(Untag(wire + [f]))
  {
    hide Typed, Transmissible;
    SendableConcat(wire, [f]);
  }

  lemma MoveSized(s: System, m: Move, prioOf: nat -> nat, peer: set<nat>, top: nat, k: nat)
    requires Inv(s) && Can(s, m, prioOf, peer) && SizedMove(m) && SizedSystem(s, top, k) && top + k + 1 < Pow256(8)
    ensures SizedSystem(Do(s, m, prioOf, peer), top, k + 1)
  {
    if m.Tick? {
      TickSized(s, top, k);
      hide Ok, DoTick, SizedQueues, Sendable, Pow256, Inv;
    } else {
      WireSized(s, m, prioOf, peer, top, k);
      NumbersSized(s, m, prioOf, peer, top, k);
      hide Inv, Can, Do, SizedQueues, Sendable, Pow256;
    }
  }

  lemma WireSized(s: System, m: Move, prioOf: nat -> nat, peer: set<nat>, top: nat, k: nat)
    requires Inv(s) && Can(s, m, prioOf, peer) && !m.Tick? && SizedSystem(s, top, k) && top + k + 1 < Pow256(8)
    ensures Sendable(Untag(Do(s, m, prioOf, peer).wire))
  {
    hide Ok, SizedQueues, Sendable, HandlesOk, PhasesOk, WireOk;
    if m.Open? {
      OneSendable(s.wire, (s.nextSid, OpenStream(s.nextSid, prioOf(s.nextSid), 0)));
    } else if m.FinishClose? {
      OneSendable(s.wire, (s.closeMgr.sid, CloseStream(s.closeMgr.sid)));
    } else if m.ShutdownFlushed? {
      OneSendable(s.wire, (0, Shutdown));
    }
  }

  lemma NumbersSized(s: System, m: Move, prioOf: nat -> nat, peer: set<nat>, top: nat, k: nat)
    requires Can(s, m, prioOf, peer) && !m.Tick? && SizedMove(m) && SizedSystem(s, top, k) && top + k + 1 < Pow256(8)
    ensures var t := Do(s, m, prioOf, peer);
      && t.nextSid <= top + k + 1 && t.prios == s.prios
      && (forall sid :: sid in t.handles ==> sid < Pow256(8) && HandleSized(t.handles[sid], k + 1))
      && (forall i :: 0 <= i < |t.messagesRx| ==> Sized(t.messagesRx[i]))
  {
    hide Ok, SizedQueues, Sendable, Pow256;
  }

  lemma {:induction false} RunSized(s: System, moves: seq<Move>, prioOf: nat -> nat, peer: set<nat>, top: nat, k: nat)
    requires Inv(s) && Legal(s, moves, prioOf, peer) && SizedSystem(s, top, k) && top + k + |moves| < Pow256(8)
    requires forall i :: 0 <= i < |moves| ==> SizedMove(moves[i])
    ensures SizedSystem(After(s, moves, prioOf, peer), top, k + |moves|)
    decreases |moves|
  {
    hide Inv, Can, Do, Orderly, SizedSystem, SizedMove, Pow256;
    if moves != [] {
      KeepInv(s, moves[0], prioOf, peer);
      MoveSized(s, moves[0], prioOf, peer, top, k);
      RunSized(Do(s, moves[0], prioOf, peer), moves[1..], prioOf, peer, top, k + 1);
    }
  }

  lemma StartSized(offset: nat, n: nat)
    ensures SizedSystem(Start(offset, n), offset, 0)
  {
  }

  // ----- what the peer holds

  /** A run of a participant within 64-bit counters. */
  ghost predicate Fits(offset: nat, moves: seq<Move>) {
    offset + |moves| < Pow256(8) && forall i :: 0 <= i < |moves| ==> SizedMove(moves[i])
  }

  /** What the run has put on the wire. */
  ghost function Sent(offset: nat, n: nat, moves: seq<Move>, prioOf: nat -> nat, peer: set<nat>): seq<byte>
    requires Legal(Start(offset, n), moves, prioOf, peer) && Fits(offset, moves)
  {
    SentFits(offset, n, moves, prioOf, peer);
    EncodeAll(Untag(After(Start(offset, n), moves, prioOf, peer).wire))
  }

  lemma SentFits(offset: nat, n: nat, moves: seq<Move>, prioOf: nat -> nat, peer: set<nat>)
    requires Legal(Start(offset, n), moves, prioOf, peer) && Fits(offset, moves)
    ensures Sendable(Untag(After(Start(offset, n), moves, prioOf, peer).wire))
  {
    StartInv(offset, n);
    StartSized(offset, n);
    RunSized(Start(offset, n), moves, prioOf, peer, offset, 0);
  }

  /** The peer decodes the first `b` bytes and handles the frames, closing the streams `gone`
      in between for reasons of its own. When it comes to the `CloseStream` of a stream that
      is not among these, it has been handed every non-empty message ever accepted on that
      stream, byte for byte and in order. */
  lemma DeliveredBeforeCloseBytes(offset: nat, n: nat, moves: seq<Move>, prioOf: nat -> nat, peer: set<nat>,
                                  cid: nat, b: nat, gone: seq<set<nat>>, k: nat)
    requires Legal(Start(offset, n), moves, prioOf, peer) && CleanRun(Start(offset, n), moves, prioOf, peer)
    requires Fits(offset, moves) && forall sid :: sid in peer ==> prioOf(sid) < PRIO_MAX
    requires b <= |Sent(offset, n, moves, prioOf, peer)|
    requires var got := DecodeWhole(Sent(offset, n, moves, prioOf, peer)[..b]);
      k < |got| && got[k].CloseStream? && |gone| == k && Stays(gone, got[k].sid)
    ensures var got := DecodeWhole(Sent(offset, n, moves, prioOf, peer)[..b]);
      var came := From(cid, got[..k]);
      && AllForParticipant(came)
      && Received(HandleBetween(Fresh(peer), came, gone).log, got[k].sid) ==
         Received(After(Start(offset, n), moves, prioOf, peer).Accepted(), got[k].sid)
  {
    SentFits(offset, n, moves, prioOf, peer);
    var wire := After(Start(offset, n), moves, prioOf, peer).wire;
    var j := BrokenOff(Untag(wire), b);
    var got := DecodeWhole(Sent(offset, n, moves, prioOf, peer)[..b]);
    assert got == Untag(wire)[..j] && got[k] == wire[k].1;
    DeliveredBeforeClose(offset, n, moves, prioOf, peer, k);
    hide Legal, After, CleanRun, HandleAll, DecodeWhole, Fits;
    TagsIgnored(Fresh(peer), wire[..k], From(cid, got[..k]));
    OthersGone(Fresh(peer), From(cid, got[..k]), gone, got[k].sid);
  }
}
