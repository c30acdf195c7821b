/** End to end: what the scheduler sends and the receiver reassembles. */
module Delivering {
  import opened Frames
  import opened Prios
  import opened Scheduling
  import opened Receiving

  // ----- what is still to come for a stream

  /** The non-empty messages of `sid` waiting in a queue. An empty buffer emits no
      frame and is never delivered. */
  function Pending(q: seq<Entry>, sid: nat): seq<seq<byte>> {
    if q == [] then []
    else (if q[0].sid == sid && q[0].msg.buffer != [] then [q[0].msg.buffer] else []) + Pending(q[1..], sid)
  }

  lemma {:induction false} PendingConcat(a: seq<Entry>, b: seq<Entry>, sid: nat)
    ensures Pending(a + b, sid) == Pending(a, sid) + Pending(b, sid)
  {
    if a == [] {
      assert a + b == b;
    } else {
      PendingConcat(a[1..], b, sid);
      assert (a + b)[1..] == a[1..] + b;
      var head := if a[0].sid == sid && a[0].msg.buffer != [] then [a[0].msg.buffer] else [];
      assert head + (Pending(a[1..], sid) + Pending(b, sid)) == head + Pending(a[1..], sid) + Pending(b, sid);
    }
  }

  /** The non-empty messages of a batch, in the order they were submitted. */
  function Payloads(subs: seq<Submission>): seq<Delivery> {
    if subs == [] then []
    else
      var sub := subs[|subs| - 1];
      Payloads(subs[..|subs| - 1]) + (if sub.msg.buffer == [] then [] else [Delivery(sub.sid, sub.msg.buffer)])
  }

  function Accepted(acts: seq<Act>): seq<Delivery> {
    if acts == [] then []
    else (if acts[0].Submit? then Payloads(acts[0].subs) else []) + Accepted(acts[1..])
  }

  /** Every message of a stream is submitted with the stream's priority and sid. */
  predicate Routed(subs: seq<Submission>, prioOf: nat -> nat) {
    forall i :: 0 <= i < |subs| ==> subs[i].prio == prioOf(subs[i].sid) && subs[i].msg.sid == subs[i].sid
  }

  predicate AllRouted(acts: seq<Act>, prioOf: nat -> nat) {
    forall i :: 0 <= i < |acts| ==> acts[i].Submit? ==> Routed(acts[i].subs, prioOf)
  }

  ghost predicate QueuesRouted(qs: seq<seq<Entry>>, prioOf: nat -> nat) {
    forall p, k :: 0 <= p < |qs| && 0 <= k < |qs[p]| ==>
      prioOf(qs[p][k].sid) == p && qs[p][k].msg.sid == qs[p][k].sid
  }

  // ----- partially sent messages and their images at the receiver

  /** The head of queue `p` has been cut into. */
  predicate Started(qs: seq<seq<Entry>>, p: nat)
    requires p < |qs|
  {
    qs[p] != [] && qs[p][0].msg.cursor > 0
  }

  function HeadMid(qs: seq<seq<Entry>>, p: nat): nat
    requires p < |qs| && qs[p] != []
  {
    qs[p][0].msg.mid
  }

  function Image(m: OutgoingMessage): IncomingMessage
    requires m.Valid()
  {
    IncomingMessage(m.buffer[..m.cursor], |m.buffer|, m.mid, m.sid)
  }

  /** The head of queue `p`, if it has been cut into, is held in part by the receiver. */
  ghost predicate Held(qs: seq<seq<Entry>>, p: nat, partial: map<nat, IncomingMessage>)
    requires p < |qs|
  {
    Started(qs, p) ==>
      && qs[p][0].msg.Valid()
      && HeadMid(qs, p) in partial && partial[HeadMid(qs, p)] == Image(qs[p][0].msg)
  }

  ghost predicate SentInPart(qs: seq<seq<Entry>>, mid: nat) {
    exists p :: 0 <= p < |qs| && Started(qs, p) && HeadMid(qs, p) == mid
  }

  ghost predicate DistinctMids(qs: seq<seq<Entry>>) {
    forall p, p' :: 0 <= p < p' < |qs| && Started(qs, p) && Started(qs, p') ==> HeadMid(qs, p) != HeadMid(qs, p')
  }

  /** The receiver holds exactly the partially sent messages, each under its own mid. */
  ghost predicate Mirrored(qs: seq<seq<Entry>>, partial: map<nat, IncomingMessage>) {
    && (forall p :: 0 <= p < |qs| ==> Held(qs, p, partial))
    && (forall mid :: mid in partial ==> SentInPart(qs, mid))
    && DistinctMids(qs)
  }

  /** The message about to be started shares its mid with one partially sent from
      another queue: streams number their messages independently, and the receiver
      tells partial messages apart by mid alone. */
  predicate Collides(s: State, a: Act)
    requires Valid(s)
  {
    NextReady(s);
    a.Serve? && Next(s).Some? &&
    var p := Next(s).value;
    s.messages[p][0].msg.cursor == 0 && s.messages[p][0].msg.buffer != [] &&
    exists p' :: 0 <= p' < PRIO_MAX && Started(s.messages, p') && HeadMid(s.messages, p') == HeadMid(s.messages, p)
  }

  predicate CollisionFree(s: State, acts: seq<Act>)
    requires Valid(s) && ValidActs(acts)
    decreases |acts|
  {
    acts == [] ||
    (!Collides(s, acts[0]) && (StepValid(s, acts[0]); CollisionFree(Step(s, acts[0]).state, acts[1..])))
  }

  /** What an open stream was submitted is what it has been handed and what is still
      queued for it. */
  ghost predicate Accounted(qs: seq<seq<Entry>>, r: Receiver, accepted: seq<Delivery>, prioOf: nat -> nat)
    requires |qs| == PRIO_MAX
  {
    forall sid :: sid in r.open && prioOf(sid) < PRIO_MAX ==>
      Received(accepted, sid) == Received(r.log, sid) + Pending(qs[prioOf(sid)], sid)
  }

  /** Scheduler, receiver and history agree. */
  ghost predicate Synced(s: State, r: Receiver, accepted: seq<Delivery>, prioOf: nat -> nat) {
    && Valid(s)
    && QueuesRouted(s.messages, prioOf)
    && Mirrored(s.messages, r.partial)
    && Accounted(s.messages, r, accepted, prioOf)
  }

  // ----- one step

  function DataFrame(m: OutgoingMessage): Frame
    requires m.Valid()
  {
    Data(m.mid, m.cursor, m.buffer[m.cursor..m.Advanced().cursor])
  }

  lemma HandleNext(r: Receiver, m: OutgoingMessage, tag: nat)
    requires m.Valid() && m.ToSend() > 0
    ensures AllForParticipant(m.NextFrames(tag))
    ensures HandleAll(r, m.NextFrames(tag)) ==
            Handle(if m.cursor == 0 then Handle(r, DataHeader(m.mid, m.sid, |m.buffer|)) else r, DataFrame(m))
  {
    var fs := m.NextFrames(tag);
    if m.cursor == 0 {
      HandleOne(r, fs[0]);
      assert fs[..1] == [fs[0]];
    } else {
      HandleOne(r, fs[0]);
    }
  }

  lemma HandleOne(r: Receiver, f: TaggedFrame)
    requires ForParticipant(f.1)
    ensures HandleAll(r, [f]) == Handle(r, f.1)
  {
    assert |[f][..0]| == 0;
  }

  /** The receiver's side of one serving. */
  lemma ReceiveNext(r: Receiver, m: OutgoingMessage, tag: nat)
    requires m.Valid() && m.ToSend() > 0
    requires if m.cursor == 0 then m.mid !in r.partial else m.mid in r.partial && r.partial[m.mid] == Image(m)
    ensures AllForParticipant(m.NextFrames(tag))
    ensures HandleAll(r, m.NextFrames(tag)) ==
      if m.Advanced().Finished() then
        Receiver(r.partial - {m.mid}, r.open, if m.sid in r.open then r.log + [Delivery(m.sid, m.buffer)] else r.log)
      else r.(partial := r.partial[m.mid := Image(m.Advanced())])
  {
    HandleNext(r, m, tag);
    var r' := if m.cursor == 0 then Handle(r, DataHeader(m.mid, m.sid, |m.buffer|)) else r;
    if m.cursor == 0 {
      HandleHeader(r, m);
    }
    hide Handle, HandleAll, Image;
    HandleChunk(r', m);
  }

  /** The receiver's side of a header. */
  lemma HandleHeader(r: Receiver, m: OutgoingMessage)
    requires m.Valid() && m.cursor == 0 && m.mid !in r.partial
    ensures var r' := Handle(r, DataHeader(m.mid, m.sid, |m.buffer|));
      && m.mid in r'.partial && r'.partial[m.mid] == Image(m)
      && r'.open == r.open && r'.log == r.log
      && r'.partial - {m.mid} == r.partial - {m.mid}
      && r'.partial[m.mid := Image(m.Advanced())] == r.partial[m.mid := Image(m.Advanced())]
  {
  }

  /** The receiver's side of one chunk. */
  lemma HandleChunk(r: Receiver, m: OutgoingMessage)
    requires m.Valid() && m.mid in r.partial && r.partial[m.mid] == Image(m)
    ensures Handle(r, DataFrame(m)) ==
      if m.Advanced().Finished() then
        Receiver(r.partial - {m.mid}, r.open, if m.sid in r.open then r.log + [Delivery(m.sid, m.buffer)] else r.log)
      else r.(partial := r.partial[m.mid := Image(m.Advanced())])
  {
    assert m.buffer[..m.cursor] + m.buffer[m.cursor..m.Advanced().cursor] == m.buffer[..m.Advanced().cursor];
    assert m.buffer[..|m.buffer|] == m.buffer;
  }

  lemma {:induction false} EnqueueAllSynced(s: State, r: Receiver, subs: seq<Submission>,
                                            accepted: seq<Delivery>, prioOf: nat -> nat)
    requires Synced(s, r, accepted, prioOf) && ValidSubmissions(subs) && Routed(subs, prioOf)
    ensures Synced(EnqueueAll(s, subs), r, accepted + Payloads(subs), prioOf)
  {
    if subs == [] {
      assert accepted + Payloads(subs) == accepted;
    } else {
      var n := |subs| - 1;
      EnqueueAllSynced(s, r, subs[..n], accepted, prioOf);
      EnqueueSynced(EnqueueAll(s, subs[..n]), r, subs[n], accepted + Payloads(subs[..n]), prioOf);
      assert subs[n..] == [subs[n]] && [subs[n]][..0] == [];
      assert accepted + Payloads(subs) == accepted + Payloads(subs[..n]) + Payloads([subs[n]]);
    }
  }

  lemma EnqueueSynced(s: State, r: Receiver, sub: Submission, accepted: seq<Delivery>, prioOf: nat -> nat)
    requires Synced(s, r, accepted, prioOf) && ValidSubmission(sub) && Routed([sub], prioOf)
    ensures Synced(Enqueue(s, sub), r, accepted + Payloads([sub]), prioOf)
  {
    EnqueueValid(s, sub);
    Shape(s);
    hide Valid, Received, Pending, Payloads, Accounted, QueuesRouted;
    EnqueueRouted(s, sub, prioOf);
    var qs' := Enqueue(s, sub).messages;
    MirrorUnstarted(s.messages, sub.prio, qs'[sub.prio], r.partial);
    EnqueueAccounted(s, r, sub, accepted, prioOf);
  }

  lemma EnqueueRouted(s: State, sub: Submission, prioOf: nat -> nat)
    requires Valid(s) && ValidSubmission(sub) && QueuesRouted(s.messages, prioOf) && Routed([sub], prioOf)
    ensures QueuesRouted(Enqueue(s, sub).messages, prioOf) && sub.prio == prioOf(sub.sid)
  {
    Shape(s);
    hide Valid;
    assert [sub][0] == sub;
  }

  lemma EnqueueAccounted(s: State, r: Receiver, sub: Submission, accepted: seq<Delivery>, prioOf: nat -> nat)
    requires Valid(s) && ValidSubmission(sub) && sub.prio == prioOf(sub.sid)
    requires Accounted(s.messages, r, accepted, prioOf)
    ensures Accounted(Enqueue(s, sub).messages, r, accepted + Payloads([sub]), prioOf)
  {
    Shape(s);
    hide Valid, Received, Pending, Payloads;
    var qs' := Enqueue(s, sub).messages;
    forall sid | sid in r.open && prioOf(sid) < PRIO_MAX
      ensures Received(accepted + Payloads([sub]), sid) ==
              Received(r.log, sid) + Pending(qs'[prioOf(sid)], sid)
    {
      PendingEnqueue(s.messages[prioOf(sid)], sub, accepted, sid);
    }
  }

  lemma PayloadsOne(sub: Submission, sid: nat)
    ensures Received(Payloads([sub]), sid) == Pending([Entry(sub.sid, sub.msg)], sid)
    ensures sid != sub.sid ==> Pending([Entry(sub.sid, sub.msg)], sid) == []
  {
    assert |[sub][..0]| == 0 && |[Entry(sub.sid, sub.msg)][1..]| == 0;
    if sub.msg.buffer != [] {
      var d := [Delivery(sub.sid, sub.msg.buffer)];
      assert Payloads([sub]) == d && |d[..0]| == 0;
    }
  }

  lemma PendingEnqueue(q: seq<Entry>, sub: Submission, accepted: seq<Delivery>, sid: nat)
    ensures Received(accepted + Payloads([sub]), sid) ==
            Received(accepted, sid) + Pending([Entry(sub.sid, sub.msg)], sid)
    ensures Pending(q + [Entry(sub.sid, sub.msg)], sid) == Pending(q, sid) + Pending([Entry(sub.sid, sub.msg)], sid)
    ensures sid != sub.sid ==> Pending([Entry(sub.sid, sub.msg)], sid) == []
  {
    ReceivedConcat(accepted, Payloads([sub]), sid);
    PendingConcat(q, [Entry(sub.sid, sub.msg)], sid);
    PayloadsOne(sub, sid);
  }

  /** Queue `p` is replaced, and its head is cut into neither before nor after. */
  lemma MirrorUnstarted(qs: seq<seq<Entry>>, p: nat, q: seq<Entry>, partial: map<nat, IncomingMessage>)
    requires p < |qs| && Mirrored(qs, partial)
    requires Started(qs, p) == Started(qs[p := q], p)
    requires Started(qs, p) ==> q[0] == qs[p][0]
    ensures Mirrored(qs[p := q], partial)
  {
    var qs' := qs[p := q];
    assert forall p' :: 0 <= p' < |qs| ==> Started(qs', p') == Started(qs, p');
    assert forall p' :: 0 <= p' < |qs| && Started(qs, p') ==> qs'[p'][0] == qs[p'][0];
    forall p' | 0 <= p' < |qs'|
      ensures Held(qs', p', partial)
    {
      assert Held(qs, p', partial);
    }
    forall mid | mid in partial
      ensures SentInPart(qs', mid)
    {
      assert SentInPart(qs, mid);
      var p' :| 0 <= p' < |qs| && Started(qs, p') && HeadMid(qs, p') == mid;
      assert Started(qs', p');
    }
  }

  /** Queue `p` moves on with the message of mid `mid`. */
  lemma MirrorAdvance(qs: seq<seq<Entry>>, p: nat, q: seq<Entry>, mid: nat, partial: map<nat, IncomingMessage>)
    requires p < |qs| && Mirrored(qs, partial)
    requires Started(qs, p) ==> HeadMid(qs, p) == mid
    requires forall p' :: 0 <= p' < |qs| && p' != p && Started(qs, p') ==> HeadMid(qs, p') != mid
    requires Started(qs[p := q], p) ==> q[0].msg.mid == mid && q[0].msg.Valid()
    ensures Mirrored(qs[p := q],
      if Started(qs[p := q], p) then partial[mid := Image(q[0].msg)] else partial - {mid})
  {
    var qs' := qs[p := q];
    var partial' := if Started(qs', p) then partial[mid := Image(q[0].msg)] else partial - {mid};
    assert forall p' :: 0 <= p' < |qs| && p' != p ==> Started(qs', p') == Started(qs, p') && qs'[p'] == qs[p'];
    forall p' | 0 <= p' < |qs'|
      ensures Held(qs', p', partial')
    {
      assert Held(qs, p', partial);
    }
    forall m | m in partial'
      ensures SentInPart(qs', m)
    {
      if m == mid {
        assert Started(qs', p);
      } else {
        assert SentInPart(qs, m);
        var p' :| 0 <= p' < |qs| && Started(qs, p') && HeadMid(qs, p') == m;
        assert Started(qs', p');
      }
    }
    assert DistinctMids(qs');
  }

  /** Mirroring when queue `p` moves on and nothing else does. */
  lemma MirrorServe(s: State, r: Receiver, p: nat)
    requires Valid(s) && Servable(s, p) && Mirrored(s.messages, r.partial)
    requires s.messages[p][0].msg.cursor == 0 && s.messages[p][0].msg.buffer != [] ==>
      forall p' :: 0 <= p' < PRIO_MAX && Started(s.messages, p') ==> HeadMid(s.messages, p') != HeadMid(s.messages, p)
    ensures AllForParticipant(ServePrio(s, p).frames)
    ensures var r' := HandleAll(r, ServePrio(s, p).frames); var m := s.messages[p][0].msg;
      && Mirrored(ServePrio(s, p).state.messages, r'.partial)
      && r'.open == r.open
      && r'.log == if m.buffer != [] && m.Advanced().Finished() && m.sid in r.open
                   then r.log + [Delivery(m.sid, m.buffer)] else r.log
  {
    var m := s.messages[p][0].msg;
    var qs := s.messages;
    var q := ServePrio(s, p).state.messages[p];
    if m.ToSend() > 0 {
      assert Held(qs, p, r.partial) && (m.mid in r.partial ==> SentInPart(qs, m.mid));
      ReceiveNext(r, m, qs[p][0].sid);
      MirrorAdvance(qs, p, q, m.mid, r.partial);
    } else {
      MirrorUnstarted(qs, p, q, r.partial);
    }
  }

  lemma ServeRouted(s: State, p: nat, prioOf: nat -> nat)
    requires Servable(s, p) && QueuesRouted(s.messages, prioOf)
    ensures QueuesRouted(ServePrio(s, p).state.messages, prioOf)
  {
    var q, q' := s.messages[p], ServePrio(s, p).state.messages[p];
    assert forall k :: 0 <= k < |q'| ==>
      q'[k].sid == q[k + |q| - |q'|].sid && q'[k].msg.sid == q[k + |q| - |q'|].msg.sid;
  }

  lemma ServePending(s: State, p: nat, sid: nat)
    requires Servable(s, p)
    ensures var m := s.messages[p][0].msg;
      Pending(s.messages[p], sid) ==
      (if m.buffer != [] && m.Advanced().Finished() && s.messages[p][0].sid == sid then [m.buffer] else [])
      + Pending(ServePrio(s, p).state.messages[p], sid)
  {
    var q, q' := s.messages[p], ServePrio(s, p).state.messages[p];
    if |q'| == |q| {
      assert q'[1..] == q[1..];
    }
  }

  lemma ServeSynced(s: State, r: Receiver, accepted: seq<Delivery>, prioOf: nat -> nat)
    requires Synced(s, r, accepted, prioOf) && !Collides(s, Serve)
    ensures AllForParticipant(Step(s, Serve).frames)
    ensures Synced(Step(s, Serve).state, HandleAll(r, Step(s, Serve).frames), accepted, prioOf)
  {
    NextReady(s);
    StepValid(s, Serve);
    if Next(s).Some? {
      hide Weight, Valid, Mirrored, Accounted;
      var p := Next(s).value;
      MirrorServe(s, r, p);
      ServeRouted(s, p, prioOf);
      ServeAccounted(s, r, p, HandleAll(r, ServePrio(s, p).frames), accepted, prioOf);
    }
  }

  lemma ServeAccounted(s: State, r: Receiver, p: nat, r': Receiver, accepted: seq<Delivery>, prioOf: nat -> nat)
    requires Servable(s, p) && QueuesRouted(s.messages, prioOf)
    requires Accounted(s.messages, r, accepted, prioOf) && r'.open == r.open
    requires var m := s.messages[p][0].msg;
      r'.log == if m.buffer != [] && m.Advanced().Finished() && m.sid in r.open
                then r.log + [Delivery(m.sid, m.buffer)] else r.log
    ensures Accounted(ServePrio(s, p).state.messages, r', accepted, prioOf)
  {
    hide Weight, Received, Pending;
    var m := s.messages[p][0].msg;
    var qs' := ServePrio(s, p).state.messages;
    forall sid | sid in r'.open && prioOf(sid) < PRIO_MAX
      ensures Received(accepted, sid) == Received(r'.log, sid) + Pending(qs'[prioOf(sid)], sid)
    {
      ServePending(s, p, sid);
      DeliverOne(r.log, Delivery(m.sid, m.buffer), sid);
      assert qs'[prioOf(sid)] == if prioOf(sid) == p then qs'[p] else s.messages[prioOf(sid)];
    }
  }

  lemma DeliverOne(log: seq<Delivery>, d: Delivery, sid: nat)
    ensures Received(log + [d], sid) == Received(log, sid) + (if d.sid == sid then [d.data] else [])
  {
    assert (log + [d])[..|log|] == log;
  }

  // ----- whole runs

  predicate AllData(fs: seq<TaggedFrame>) {
    forall i :: 0 <= i < |fs| ==> fs[i].1.DataHeader? || fs[i].1.Data?
  }

  lemma {:induction false} StaysOpen(r: Receiver, fs: seq<TaggedFrame>)
    requires AllForParticipant(fs) && AllData(fs)
    ensures HandleAll(r, fs).open == r.open
    decreases |fs|
  {
    if fs != [] {
      StaysOpen(r, fs[..|fs| - 1]);
    }
  }

  lemma StepFrames(s: State, a: Act)
    requires Valid(s) && a.Valid()
    ensures AllForParticipant(Step(s, a).frames) && AllData(Step(s, a).frames)
  {
    if a.Submit? {
      TakeValid(s, a.subs, a.reqs);
    } else {
      NextReady(s);
    }
  }

  lemma {:induction false} ExecFrames(s: State, acts: seq<Act>)
    requires Valid(s) && ValidActs(acts)
    ensures AllForParticipant(Exec(s, acts).frames) && AllData(Exec(s, acts).frames)
    decreases |acts|
  {
    if acts != [] {
      StepFrames(s, acts[0]);
      StepValid(s, acts[0]);
      ExecFrames(Step(s, acts[0]).state, acts[1..]);
    }
  }

  lemma StepSynced(s: State, r: Receiver, a: Act, accepted: seq<Delivery>, prioOf: nat -> nat)
    requires Synced(s, r, accepted, prioOf) && a.Valid() && !Collides(s, a)
    requires a.Submit? ==> Routed(a.subs, prioOf)
    ensures AllForParticipant(Step(s, a).frames)
    ensures Synced(Step(s, a).state, HandleAll(r, Step(s, a).frames),
                   accepted + (if a.Submit? then Payloads(a.subs) else []), prioOf)
  {
    StepFrames(s, a);
    StepValid(s, a);
    if a.Submit? {
      TakeValid(s, a.subs, a.reqs);
      EnqueueAllSynced(s, r, a.subs, accepted, prioOf);
    } else {
      ServeSynced(s, r, accepted, prioOf);
      assert accepted + [] == accepted;
    }
  }

  lemma {:induction false} ExecSynced(s: State, r: Receiver, acts: seq<Act>, accepted: seq<Delivery>,
          prioOf: nat -> nat)
    requires Synced(s, r, accepted, prioOf)
    requires ValidActs(acts) && AllRouted(acts, prioOf) && CollisionFree(s, acts)
    ensures AllForParticipant(Exec(s, acts).frames)
    ensures Synced(Exec(s, acts).state, HandleAll(r, Exec(s, acts).frames), accepted + Accepted(acts), prioOf)
    decreases |acts|
  {
    hide Valid, Mirrored, Accounted, QueuesRouted, Step, Collides;
    ExecFrames(s, acts);
    if acts == [] {
      assert accepted + Accepted(acts) == accepted;
    } else {
      var o := Step(s, acts[0]);
      var more := if acts[0].Submit? then Payloads(acts[0].subs) else [];
      StepSynced(s, r, acts[0], accepted, prioOf);
      ExecFrames(o.state, acts[1..]);
      ExecSynced(o.state, HandleAll(r, o.frames), acts[1..], accepted + more, prioOf);
      HandleAllConcat(r, o.frames, Exec(o.state, acts[1..]).frames);
      assert accepted + more + Accepted(acts[1..]) == accepted + Accepted(acts);
    }
  }

  function Fresh(open: set<nat>): Receiver {
    Receiver(map[], open, [])
  }

  lemma InitialSynced(open: set<nat>, prioOf: nat -> nat)
    ensures Synced(Initial(), Fresh(open), [], prioOf)
  {
    InitialValid();
  }

  /** After any run of submissions and servings, and with any part of the frames
      handled so far, an open stream has been handed a prefix of the non-empty
      messages submitted on it, byte for byte and in order; once the queues are
      empty and all frames handled, it has been handed all of them. */
  lemma {:induction false} Delivered(acts: seq<Act>, open: set<nat>, prioOf: nat -> nat, k: nat, sid: nat)
    requires (InitialValid(); ValidActs(acts) && AllRouted(acts, prioOf) && CollisionFree(Initial(), acts))
    requires k <= |Exec(Initial(), acts).frames| && sid in open && prioOf(sid) < PRIO_MAX
    ensures AllForParticipant(Exec(Initial(), acts).frames[..k])
    ensures Received(HandleAll(Fresh(open), Exec(Initial(), acts).frames[..k]).log, sid) <=
            Received(Accepted(acts), sid)
    ensures k == |Exec(Initial(), acts).frames| && Exec(Initial(), acts).state.queued == {} ==>
            Received(HandleAll(Fresh(open), Exec(Initial(), acts).frames[..k]).log, sid) ==
            Received(Accepted(acts), sid)
  {
    hide Step, Collides, CollisionFree, Mirrored, QueuesRouted;
    InitialSynced(open, prioOf);
    ExecSynced(Initial(), Fresh(open), acts, [], prioOf);
    assert [] + Accepted(acts) == Accepted(acts);
    var o := Exec(Initial(), acts);
    LogGrows(Fresh(open), o.frames, k);
    var part, all := HandleAll(Fresh(open), o.frames[..k]).log, HandleAll(Fresh(open), o.frames).log;
    assert all == part + all[|part|..];
    ReceivedConcat(part, all[|part|..], sid);
    ExecFrames(Initial(), acts);
    StaysOpen(Fresh(open), o.frames);
    if k == |o.frames| && o.state.queued == {} {
      assert o.frames[..k] == o.frames;
      assert o.state.messages[prioOf(sid)] == [];
    }
  }
}
