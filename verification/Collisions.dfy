/** Delivery is complete exactly in the runs without a mid collision. */
module Collisions {
  import opened Wrappers
  import opened Frames
  import opened Prios
  import opened Scheduling
  import opened Receiving
  import opened Delivering

  // ----- messages not yet started

  predicate Unstarted(e: Entry) {
    e.msg.cursor == 0 && e.msg.buffer != []
  }

  function UnstartedIn(q: seq<Entry>): nat {
    if q == [] then 0 else (if Unstarted(q[0]) then 1 else 0) + UnstartedIn(q[1..])
  }

  function AllUnstarted(qs: seq<seq<Entry>>): nat {
    if qs == [] then 0 else UnstartedIn(qs[0]) + AllUnstarted(qs[1..])
  }

  lemma {:induction false} UnstartedAppend(q: seq<Entry>, e: Entry)
    ensures UnstartedIn(q + [e]) == UnstartedIn(q) + (if Unstarted(e) then 1 else 0)
  {
    if q == [] {
      assert |[e][1..]| == 0;
    } else {
      UnstartedAppend(q[1..], e);
      assert (q + [e])[1..] == q[1..] + [e];
    }
  }

  lemma {:induction false} UnstartedUpdate(qs: seq<seq<Entry>>, p: nat, q: seq<Entry>)
    requires p < |qs|
    ensures AllUnstarted(qs[p := q]) + UnstartedIn(qs[p]) == AllUnstarted(qs) + UnstartedIn(q)
  {
    if p == 0 {
      assert qs[p := q][1..] == qs[1..];
    } else {
      UnstartedUpdate(qs[1..], p - 1, q);
      assert qs[p := q][1..] == qs[1..][p - 1 := q];
    }
  }

  lemma {:induction false} NoneUnstarted(qs: seq<seq<Entry>>)
    requires forall p :: 0 <= p < |qs| ==> qs[p] == []
    ensures AllUnstarted(qs) == 0
  {
    if qs != [] {
      NoneUnstarted(qs[1..]);
    }
  }

  // ----- the tally of messages: delivered, held in part, not yet started

  ghost predicate AllOpen(r: Receiver) {
    forall mid :: mid in r.partial ==> r.partial[mid].sid in r.open
  }

  ghost function Tally(s: State, r: Receiver): nat {
    |r.log| + |r.partial| + AllUnstarted(s.messages)
  }

  /** Streams of queued messages are open at the receiver. */
  ghost predicate QueuesOpen(qs: seq<seq<Entry>>, open: set<nat>) {
    forall p, k :: 0 <= p < |qs| && 0 <= k < |qs[p]| ==> qs[p][k].msg.sid in open
  }

  predicate SubsOpen(subs: seq<Submission>, open: set<nat>) {
    forall i :: 0 <= i < |subs| ==> subs[i].msg.sid in open
  }

  predicate ActsOpen(acts: seq<Act>, open: set<nat>) {
    forall i :: 0 <= i < |acts| ==> acts[i].Submit? ==> SubsOpen(acts[i].subs, open)
  }

  lemma {:induction false} EnqueueAllTally(s: State, subs: seq<Submission>, open: set<nat>)
    requires |s.messages| == PRIO_MAX && ValidSubmissions(subs) && SubsOpen(subs, open) && QueuesOpen(s.messages, open)
    ensures AllUnstarted(EnqueueAll(s, subs).messages) == AllUnstarted(s.messages) + |Payloads(subs)|
    ensures QueuesOpen(EnqueueAll(s, subs).messages, open)
  {
    if subs != [] {
      var sub, t := subs[|subs| - 1], EnqueueAll(s, subs[..|subs| - 1]);
      EnqueueAllTally(s, subs[..|subs| - 1], open);
      UnstartedUpdate(t.messages, sub.prio, t.messages[sub.prio] + [Entry(sub.sid, sub.msg)]);
      UnstartedAppend(t.messages[sub.prio], Entry(sub.sid, sub.msg));
    }
  }

  /** A data frame leaves the number of messages delivered or held in part alone. */
  lemma DataTally(r: Receiver, f: Frame)
    requires f.Data? && AllOpen(r)
    ensures var r' := Handle(r, f);
      AllOpen(r') && r'.open == r.open && |r'.log| + |r'.partial| == |r.log| + |r.partial|
  {
    if f.mid in r.partial {
      var m := r.partial[f.mid];
      assert (r.partial - {f.mid}).Keys == r.partial.Keys - {f.mid};
      assert r.partial[f.mid := m.(buffer := m.buffer + f.data)].Keys == r.partial.Keys;
    }
  }

  /** A header adds a message, or overwrites one with its mid. */
  lemma HeaderTally(r: Receiver, f: Frame)
    requires f.DataHeader? && AllOpen(r) && f.sid in r.open
    ensures var r' := Handle(r, f);
      AllOpen(r') && r'.open == r.open && r'.log == r.log &&
      |r'.partial| == |r.partial| + (if f.mid in r.partial then 0 else 1)
  {
    assert Handle(r, f).partial.Keys == r.partial.Keys + {f.mid};
  }

  lemma ReceiveTally(r: Receiver, m: OutgoingMessage, tag: nat)
    requires m.Valid() && AllOpen(r) && m.sid in r.open
    ensures AllForParticipant(m.NextFrames(tag))
    ensures var r' := HandleAll(r, m.NextFrames(tag));
      && AllOpen(r') && r'.open == r.open
      && |r'.log| + |r'.partial| ==
         |r.log| + |r.partial| + (if m.cursor == 0 && m.buffer != [] && m.mid !in r.partial then 1 else 0)
  {
    if m.ToSend() > 0 {
      HandleNext(r, m, tag);
      if m.cursor == 0 {
        HeaderTally(r, DataHeader(m.mid, m.sid, |m.buffer|));
      }
      DataTally(if m.cursor == 0 then Handle(r, DataHeader(m.mid, m.sid, |m.buffer|)) else r, DataFrame(m));
    }
  }

  lemma ServeUnstarted(s: State, p: nat, open: set<nat>)
    requires Servable(s, p) && QueuesOpen(s.messages, open)
    ensures var qs' := ServePrio(s, p).state.messages;
      && AllUnstarted(qs') == AllUnstarted(s.messages) - (if Unstarted(s.messages[p][0]) then 1 else 0)
      && QueuesOpen(qs', open)
  {
    hide Weight;
    var q, q' := s.messages[p], ServePrio(s, p).state.messages[p];
    UnstartedUpdate(s.messages, p, q');
    if |q'| == |q| {
      assert q'[1..] == q[1..];
    }
    assert forall k :: 0 <= k < |q'| ==> q'[k].msg.sid == q[k + |q| - |q'|].msg.sid;
  }

  /** A serving keeps the tally, unless a message is started whose mid is taken: that
      loses one message for good. */
  lemma ServeTally(s: State, r: Receiver, p: nat)
    requires Servable(s, p) && AllOpen(r) && QueuesOpen(s.messages, r.open)
    ensures AllForParticipant(ServePrio(s, p).frames)
    ensures var o := ServePrio(s, p); var r' := HandleAll(r, o.frames); var e := s.messages[p][0];
      && AllOpen(r') && r'.open == r.open && QueuesOpen(o.state.messages, r.open)
      && Tally(o.state, r') == Tally(s, r) - (if Unstarted(e) && e.msg.mid in r.partial then 1 else 0)
  {
    hide Weight;
    ServeUnstarted(s, p, r.open);
    ReceiveTally(r, s.messages[p][0].msg, s.messages[p][0].sid);
  }

  /** A step never raises the tally beyond what it accepts, and a collision lowers it. */
  lemma StepTally(s: State, r: Receiver, a: Act)
    requires Valid(s) && a.Valid() && AllOpen(r) && QueuesOpen(s.messages, r.open)
    requires a.Submit? ==> SubsOpen(a.subs, r.open)
    ensures AllForParticipant(Step(s, a).frames)
    ensures var o := Step(s, a); var r' := HandleAll(r, o.frames);
      && AllOpen(r') && r'.open == r.open && QueuesOpen(o.state.messages, r.open)
      && Tally(o.state, r') <= Tally(s, r) + (if a.Submit? then |Payloads(a.subs)| else 0)
      && (Collides(s, a) && Mirrored(s.messages, r.partial) ==> Tally(o.state, r') < Tally(s, r))
  {
    hide Weight, Mirrored;
    StepFrames(s, a);
    if a.Submit? {
      TakeValid(s, a.subs, a.reqs);
      EnqueueAllTally(s, a.subs, r.open);
    } else {
      NextReady(s);
      if Next(s).Some? {
        ServeTally(s, r, Next(s).value);
        if Collides(s, a) && Mirrored(s.messages, r.partial) {
          CollidingMidIsHeld(s, r);
        }
      }
    }
  }

  lemma CollidingMidIsHeld(s: State, r: Receiver)
    requires Valid(s) && Collides(s, Serve) && Mirrored(s.messages, r.partial)
    ensures Next(s).Some? && Servable(s, Next(s).value)
    ensures var e := s.messages[Next(s).value][0]; Unstarted(e) && e.msg.mid in r.partial
  {
    NextReady(s);
    var p := Next(s).value;
    var p' :| 0 <= p' < PRIO_MAX && Started(s.messages, p') && HeadMid(s.messages, p') == HeadMid(s.messages, p);
    assert Held(s.messages, p', r.partial);
  }

  lemma {:induction false} ExecTally(s: State, r: Receiver, acts: seq<Act>)
    requires Valid(s) && ValidActs(acts) && AllOpen(r) && QueuesOpen(s.messages, r.open) && ActsOpen(acts, r.open)
    ensures AllForParticipant(Exec(s, acts).frames)
    ensures var o := Exec(s, acts); Tally(o.state, HandleAll(r, o.frames)) <= Tally(s, r) + |Accepted(acts)|
    decreases |acts|
  {
    hide Valid, Step, Tally;
    ExecFrames(s, acts);
    if acts != [] {
      StepTally(s, r, acts[0]);
      StepValid(s, acts[0]);
      var o := Step(s, acts[0]);
      ExecFrames(o.state, acts[1..]);
      ExecTally(o.state, HandleAll(r, o.frames), acts[1..]);
      HandleAllConcat(r, o.frames, Exec(o.state, acts[1..]).frames);
    }
  }

  /** The first collision of a run loses a message, and it stays lost. */
  lemma {:induction false} CollisionLoses(s: State, r: Receiver, acts: seq<Act>, accepted: seq<Delivery>,
          prioOf: nat -> nat)
    requires Synced(s, r, accepted, prioOf) && AllOpen(r) && QueuesOpen(s.messages, r.open)
    requires ValidActs(acts) && AllRouted(acts, prioOf) && ActsOpen(acts, r.open)
    requires !CollisionFree(s, acts)
    ensures AllForParticipant(Exec(s, acts).frames)
    ensures var o := Exec(s, acts); Tally(o.state, HandleAll(r, o.frames)) < Tally(s, r) + |Accepted(acts)|
    decreases |acts|
  {
    hide Valid, Step, Tally, Mirrored, Accounted, QueuesRouted, Collides;
    ExecFrames(s, acts);
    StepTally(s, r, acts[0]);
    var o := Step(s, acts[0]);
    var r' := HandleAll(r, o.frames);
    StepValid(s, acts[0]);
    ExecFrames(o.state, acts[1..]);
    if Collides(s, acts[0]) {
      ExecTally(o.state, r', acts[1..]);
    } else {
      StepSynced(s, r, acts[0], accepted, prioOf);
      CollisionLoses(o.state, r', acts[1..],
        accepted + (if acts[0].Submit? then Payloads(acts[0].subs) else []), prioOf);
    }
    HandleAllConcat(r, o.frames, Exec(o.state, acts[1..]).frames);
  }

  // ----- equal deliveries per stream have equal length

  function Sids(log: seq<Delivery>): multiset<nat> {
    if log == [] then multiset{} else Sids(log[..|log| - 1]) + multiset{log[|log| - 1].sid}
  }

  lemma {:induction false} SidsCount(log: seq<Delivery>)
    ensures |Sids(log)| == |log|
    ensures forall sid: nat :: Sids(log)[sid] == |Received(log, sid)|
  {
    if log != [] {
      SidsCount(log[..|log| - 1]);
    }
  }

  lemma SameLength(a: seq<Delivery>, b: seq<Delivery>)
    requires forall sid: nat :: Received(a, sid) == Received(b, sid)
    ensures |a| == |b|
  {
    SidsCount(a);
    SidsCount(b);
    forall sid: nat
      ensures Sids(a)[sid] == Sids(b)[sid]
    {
      assert Received(a, sid) == Received(b, sid);
    }
    assert Sids(a) == Sids(b);
  }

  /** Every stream a run submits on is open at the receiver and has a priority. */
  predicate WellUsed(acts: seq<Act>, open: set<nat>, prioOf: nat -> nat) {
    ValidActs(acts) && AllRouted(acts, prioOf) && ActsOpen(acts, open)
  }

  lemma {:induction false} PayloadsRouted(subs: seq<Submission>, open: set<nat>, prioOf: nat -> nat)
    requires ValidSubmissions(subs) && Routed(subs, prioOf) && SubsOpen(subs, open)
    ensures forall d :: d in Payloads(subs) ==> d.sid in open && prioOf(d.sid) < PRIO_MAX
  {
    if subs != [] {
      PayloadsRouted(subs[..|subs| - 1], open, prioOf);
    }
  }

  lemma {:induction false} AcceptedRouted(acts: seq<Act>, open: set<nat>, prioOf: nat -> nat)
    requires WellUsed(acts, open, prioOf)
    ensures forall d :: d in Accepted(acts) ==> d.sid in open && prioOf(d.sid) < PRIO_MAX
  {
    if acts != [] {
      if acts[0].Submit? {
        PayloadsRouted(acts[0].subs, open, prioOf);
      }
      AcceptedRouted(acts[1..], open, prioOf);
    }
  }

  lemma {:induction false} NothingReceived(log: seq<Delivery>, sid: nat)
    requires forall d :: d in log ==> d.sid != sid
    ensures Received(log, sid) == []
  {
    if log != [] {
      NothingReceived(log[..|log| - 1], sid);
    }
  }

  /** What the receiver logs came in a header of a queued message. */
  lemma {:induction false} LogOpen(r: Receiver, fs: seq<TaggedFrame>)
    requires AllForParticipant(fs) && AllData(fs)
    requires forall d :: d in r.log ==> d.sid in r.open
    ensures HandleAll(r, fs).open == r.open
    ensures forall d :: d in HandleAll(r, fs).log ==> d.sid in r.open
  {
    if fs != [] {
      LogOpen(r, fs[..|fs| - 1]);
    }
  }

  /** Once everything is sent and handled, every stream has been handed exactly what
      was submitted on it if and only if no message was started while its mid was
      taken by a partially sent one. */
  lemma DeliveredIffCollisionFree(acts: seq<Act>, open: set<nat>, prioOf: nat -> nat)
    requires WellUsed(acts, open, prioOf)
    requires (InitialValid(); Exec(Initial(), acts).state.queued == {})
    requires forall sid :: sid in open ==> prioOf(sid) < PRIO_MAX
    ensures (InitialValid(); AllForParticipant(Exec(Initial(), acts).frames))
    ensures (InitialValid();
      (forall sid :: Received(HandleAll(Fresh(open), Exec(Initial(), acts).frames).log, sid) ==
                     Received(Accepted(acts), sid))
      <==> CollisionFree(Initial(), acts))
  {
    InitialValid();
    ExecFrames(Initial(), acts);
    if CollisionFree(Initial(), acts) {
      AllDelivered(acts, open, prioOf);
    } else {
      SomeLost(acts, open, prioOf);
    }
  }

  lemma AllDelivered(acts: seq<Act>, open: set<nat>, prioOf: nat -> nat)
    requires WellUsed(acts, open, prioOf)
    requires (InitialValid(); Exec(Initial(), acts).state.queued == {} && CollisionFree(Initial(), acts))
    requires forall sid :: sid in open ==> prioOf(sid) < PRIO_MAX
    ensures AllForParticipant(Exec(Initial(), acts).frames)
    ensures forall sid :: Received(HandleAll(Fresh(open), Exec(Initial(), acts).frames).log, sid) ==
                          Received(Accepted(acts), sid)
  {
    InitialValid();
    var o := Exec(Initial(), acts);
    ExecFrames(Initial(), acts);
    var r := HandleAll(Fresh(open), o.frames);
    AcceptedRouted(acts, open, prioOf);
    LogOpen(Fresh(open), o.frames);
    forall sid
      ensures Received(r.log, sid) == Received(Accepted(acts), sid)
    {
      if sid in open {
        Delivered(acts, open, prioOf, |o.frames|, sid);
        assert o.frames[..|o.frames|] == o.frames;
      } else {
        NothingReceived(r.log, sid);
        NothingReceived(Accepted(acts), sid);
      }
    }
  }

  lemma SomeLost(acts: seq<Act>, open: set<nat>, prioOf: nat -> nat)
    requires WellUsed(acts, open, prioOf)
    requires (InitialValid(); Exec(Initial(), acts).state.queued == {} && !CollisionFree(Initial(), acts))
    ensures AllForParticipant(Exec(Initial(), acts).frames)
    ensures exists sid :: Received(HandleAll(Fresh(open), Exec(Initial(), acts).frames).log, sid) !=
                          Received(Accepted(acts), sid)
  {
    InitialValid();
    var o := Exec(Initial(), acts);
    ExecFrames(Initial(), acts);
    var r := HandleAll(Fresh(open), o.frames);
    hide Valid, Exec, CollisionFree, AllRouted, Synced;
    InitialSynced(open, prioOf);
    NoneUnstarted(Initial().messages);
    CollisionLoses(Initial(), Fresh(open), acts, [], prioOf);
    ExecValid(Initial(), acts);
    NoneUnstarted(o.state.messages);
    if forall sid :: Received(r.log, sid) == Received(Accepted(acts), sid) {
      SameLength(r.log, Accepted(acts));
    }
  }

  // ----- when collisions can and cannot happen

  ghost predicate OnlyQueue(s: State, p: nat) {
    |s.messages| == PRIO_MAX && forall p' :: 0 <= p' < PRIO_MAX && p' != p ==> s.messages[p'] == []
  }

  lemma {:induction false} EnqueueAllOnlyQueue(s: State, subs: seq<Submission>, p: nat)
    requires OnlyQueue(s, p) && ValidSubmissions(subs)
    requires forall i :: 0 <= i < |subs| ==> subs[i].prio == p
    ensures OnlyQueue(EnqueueAll(s, subs), p)
  {
    if subs != [] {
      EnqueueAllOnlyQueue(s, subs[..|subs| - 1], p);
    }
  }

  lemma {:induction false} OnePriorityFrom(s: State, acts: seq<Act>, p: nat)
    requires Valid(s) && ValidActs(acts) && OnlyQueue(s, p)
    requires forall i, k :: 0 <= i < |acts| && acts[i].Submit? && 0 <= k < |acts[i].subs| ==> acts[i].subs[k].prio == p
    ensures CollisionFree(s, acts)
    decreases |acts|
  {
    if acts != [] {
      StepValid(s, acts[0]);
      NextReady(s);
      if acts[0].Submit? {
        TakeValid(s, acts[0].subs, acts[0].reqs);
        EnqueueAllOnlyQueue(s, acts[0].subs, p);
      }
      OnePriorityFrom(Step(s, acts[0]).state, acts[1..], p);
    }
  }

  /** With all streams on one priority only one message is ever partially sent, so
      every run delivers. */
  lemma OnePriorityIsCollisionFree(acts: seq<Act>, p: nat)
    requires ValidActs(acts)
    requires forall i, k :: 0 <= i < |acts| && acts[i].Submit? && 0 <= k < |acts[i].subs| ==> acts[i].subs[k].prio == p
    ensures (InitialValid(); CollisionFree(Initial(), acts))
  {
    InitialValid();
    OnePriorityFrom(Initial(), acts, p);
  }

  /** The first messages of two streams of different priority collide as soon as the
      more urgent one takes more than one frame. */
  lemma FirstMessagesCollide(long: seq<byte>, short: seq<byte>)
    requires |long| > FRAME_DATA_SIZE && |short| > 0
    ensures (InitialValid();
             !CollisionFree(Initial(), [Submit(TwoStreams(long, short), []), Serve, Serve]))
  {
    InitialValid();
    var subs := TwoStreams(long, short);
    var acts := [Submit(subs, []), Serve, Serve];
    var s1 := Step(Initial(), acts[0]).state;
    StepValid(Initial(), acts[0]);
    assert subs[..1] == [subs[0]] && |subs[..1][..0]| == 0;
    assert EnqueueAll(Initial(), subs[..1]) == Enqueue(Initial(), subs[0]);
    assert s1 == Enqueue(Enqueue(Initial(), subs[0]), subs[1]);
    assert acts[1..] == [Serve, Serve];
    UrgentThenOther(s1);
  }

  lemma UrgentThenOther(s: State)
    requires Valid(s) && s.queued == {0, 1} && s.points[0] == 0 && s.points[1] == 0
    requires var m := s.messages[0][0].msg; m.cursor == 0 && |m.buffer| > FRAME_DATA_SIZE
    requires var m := s.messages[1][0].msg; m.cursor == 0 && |m.buffer| > 0 && m.mid == s.messages[0][0].msg.mid
    ensures !CollisionFree(s, [Serve, Serve])
  {
    NextIsNext(s);
    assert IsNext(s.points, s.queued, Some(0));
    StepValid(s, Serve);
    var t := Step(s, Serve).state;
    assert t == ServePrio(s, 0).state && t.points[0] == Weight(0) && t.points[1] == 0;
    assert Started(t.messages, 0);
    NextIsNext(t);
    assert IsNext(t.points, t.queued, Some(1));
    NextReady(t);
    assert Collides(t, Serve);
    assert [Serve, Serve][1..] == [Serve];
    assert !CollisionFree(t, [Serve]);
  }

  function TwoStreams(long: seq<byte>, short: seq<byte>): seq<Submission> {
    [Submission(0, 1, OutgoingMessage(long, 0, 0, 1)), Submission(1, 2, OutgoingMessage(short, 0, 0, 2))]
  }
}
