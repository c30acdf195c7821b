/** What one `fill_frames` loop does to a stream: its count, its flush notification,
    the tags of the frames, and the receiver's state. */
module Filling {
  import opened Frames
  import opened Prios
  import opened Scheduling
  import opened Flushing
  import opened Receiving
  import opened Delivering

  ghost predicate NoneOf(subs: seq<Submission>, sid: nat) {
    forall i :: 0 <= i < |subs| ==> subs[i].sid != sid
  }

  lemma {:induction false} EnqueueAllCount(s: State, subs: seq<Submission>, sid: nat)
    requires |s.messages| == PRIO_MAX && ValidSubmissions(subs)
    ensures Count(EnqueueAll(s, subs).messages, sid) >= Count(s.messages, sid)
    ensures NoneOf(subs, sid) ==> Count(EnqueueAll(s, subs).messages, sid) == Count(s.messages, sid)
  {
    if subs != [] {
      var sub, t := subs[|subs| - 1], EnqueueAll(s, subs[..|subs| - 1]);
      EnqueueAllCount(s, subs[..|subs| - 1], sid);
      CountUpdate(t.messages, sub.prio, t.messages[sub.prio] + [Entry(sub.sid, sub.msg)], sid);
      CountInConcat(t.messages[sub.prio], [Entry(sub.sid, sub.msg)], sid);
    }
  }

  lemma ServeTags(s: State, p: nat)
    requires Servable(s, p)
    ensures forall sid: nat :: Count(ServePrio(s, p).state.messages, sid) <= Count(s.messages, sid)
    ensures forall i :: 0 <= i < |ServePrio(s, p).frames| ==> Count(s.messages, ServePrio(s, p).frames[i].0) > 0
    ensures AllForParticipant(ServePrio(s, p).frames) && AllData(ServePrio(s, p).frames)
  {
    forall sid: nat ensures Count(ServePrio(s, p).state.messages, sid) <= Count(s.messages, sid) {
      ServeCounts(s, p, sid);
    }
    CountMember(s.messages, p, 0);
  }

  /** Frames are produced only for streams with queued messages, and the loop adds none. */
  lemma {:induction false} FillTags(s: State, n: nat)
    requires Valid(s)
    ensures forall sid: nat :: Count(Fill(s, n).state.messages, sid) <= Count(s.messages, sid)
    ensures forall i :: 0 <= i < |Fill(s, n).frames| ==> Count(s.messages, Fill(s, n).frames[i].0) > 0
    ensures AllForParticipant(Fill(s, n).frames) && AllData(Fill(s, n).frames)
    decreases n
  {
    hide *;
    FillUnfold(s, n);
    if n > 0 && Next(s).Some? {
      ServeTags(s, Next(s).value);
      FillTags(ServePrio(s, Next(s).value).state, n - 1);
      AllDataConcat(ServePrio(s, Next(s).value).frames, Fill(ServePrio(s, Next(s).value).state, n - 1).frames);
    } else {
      AllDataNone();
    }
  }

  lemma AllDataNone()
    ensures AllForParticipant([]) && AllData([])
  {
  }

  lemma AllDataConcat(a: seq<TaggedFrame>, b: seq<TaggedFrame>)
    requires AllForParticipant(a) && AllData(a) && AllForParticipant(b) && AllData(b)
    ensures AllForParticipant(a + b) && AllData(a + b)
  {
  }

  /** A waiting sender is told within the loop exactly if the stream ends up empty. */
  lemma {:induction false} FillWaiting(s: State, n: nat, sid: nat, id: nat)
    requires Valid(s) && Waiting(s, sid, id)
    ensures var o := Fill(s, n);
      if Count(o.state.messages, sid) == 0 then id in o.notified
      else id !in o.notified && Waiting(o.state, sid, id)
    decreases n
  {
    hide *;
    FillUnfold(s, n);
    if n > 0 && Next(s).Some? {
      StepServe(s);
      StepWaiting(s, Serve, sid, id);
      var o := ServePrio(s, Next(s).value);
      if Count(o.state.messages, sid) == 0 {
        FillTags(o.state, n - 1);
      } else {
        FillWaiting(o.state, n - 1, sid, id);
      }
    } else {
      WaitingCount(s, sid, id);
    }
  }

  lemma WaitingCount(s: State, sid: nat, id: nat)
    requires Valid(s) && Waiting(s, sid, id)
    ensures Count(s.messages, sid) > 0
    ensures Waiting(s.(points := Zeros()), sid, id)
  {
  }

  lemma StepServe(s: State)
    requires Valid(s) && Next(s).Some?
    ensures Serve.Valid() && Serve != Submit([], [])
    ensures Servable(s, Next(s).value) && Step(s, Serve) == ServePrio(s, Next(s).value)
  {
    NextReady(s);
  }

  /** Registered senders are below `bound`. */
  ghost predicate IdsBelow(owned: map<nat, SidInfo>, bound: nat) {
    forall t: nat :: t in owned && owned[t].notify.Some? ==> owned[t].notify.value < bound
  }

  ghost predicate AllBelow(ids: seq<nat>, bound: nat) {
    forall i :: 0 <= i < |ids| ==> ids[i] < bound
  }

  lemma AllBelowConcat(a: seq<nat>, b: seq<nat>, bound: nat)
    requires AllBelow(a, bound) && AllBelow(b, bound)
    ensures AllBelow([], bound) && AllBelow(a + b, bound)
  {
  }

  lemma ServeIds(s: State, p: nat, bound: nat)
    requires Servable(s, p) && IdsBelow(s.owned, bound)
    ensures IdsBelow(ServePrio(s, p).state.owned, bound) && AllBelow(ServePrio(s, p).notified, bound)
  {
  }

  lemma {:induction false} FillIds(s: State, n: nat, bound: nat)
    requires Valid(s) && IdsBelow(s.owned, bound)
    ensures IdsBelow(Fill(s, n).state.owned, bound) && AllBelow(Fill(s, n).notified, bound)
    decreases n
  {
    hide *;
    FillUnfold(s, n);
    if n > 0 && Next(s).Some? {
      ServeIds(s, Next(s).value, bound);
      FillIds(ServePrio(s, Next(s).value).state, n - 1, bound);
      AllBelowConcat(ServePrio(s, Next(s).value).notified,
        Fill(ServePrio(s, Next(s).value).state, n - 1).notified, bound);
    } else {
      AllBelowConcat([], [], bound);
    }
  }

  lemma {:induction false} EnqueueAllIds(s: State, subs: seq<Submission>, bound: nat)
    requires |s.messages| == PRIO_MAX && ValidSubmissions(subs) && IdsBelow(s.owned, bound)
    ensures IdsBelow(EnqueueAll(s, subs).owned, bound)
  {
    if subs != [] {
      EnqueueAllIds(s, subs[..|subs| - 1], bound);
    }
  }

  /** No message of the loop is started while its mid is taken. */
  predicate FillClean(s: State, n: nat)
    requires Valid(s)
    decreases n
  {
    n == 0 || (NextReady(s);
               Next(s).None? || (!Collides(s, Serve) && FillClean(ServePrio(s, Next(s).value).state, n - 1)))
  }

  lemma {:induction false} FillSynced(s: State, n: nat, r: Receiver, accepted: seq<Delivery>, prioOf: nat -> nat)
    requires Synced(s, r, accepted, prioOf) && FillClean(s, n)
    ensures AllForParticipant(Fill(s, n).frames)
    ensures Synced(Fill(s, n).state, HandleAll(r, Fill(s, n).frames), accepted, prioOf)
    decreases n
  {
    hide *;
    SyncedValid(s, r, accepted, prioOf);
    FillTags(s, n);
    FillUnfold(s, n);
    if n > 0 && Next(s).Some? {
      CleanServe(s, n);
      ServeSynced(s, r, accepted, prioOf);
      var o := ServePrio(s, Next(s).value);
      FillTags(o.state, n - 1);
      FillSynced(o.state, n - 1, HandleAll(r, o.frames), accepted, prioOf);
      HandleAllConcat(r, o.frames, Fill(o.state, n - 1).frames);
    } else {
      HandleNone(r);
      if n > 0 {
        SyncedPoints(s, r, accepted, prioOf);
      }
    }
  }

  lemma SyncedValid(s: State, r: Receiver, accepted: seq<Delivery>, prioOf: nat -> nat)
    requires Synced(s, r, accepted, prioOf)
    ensures Valid(s)
  {
  }

  lemma CleanServe(s: State, n: nat)
    requires Valid(s) && FillClean(s, n) && n > 0 && Next(s).Some?
    ensures !Collides(s, Serve) && Servable(s, Next(s).value) && Step(s, Serve) == ServePrio(s, Next(s).value)
    ensures Valid(ServePrio(s, Next(s).value).state) && FillClean(ServePrio(s, Next(s).value).state, n - 1)
  {
    NextReady(s);
  }

  lemma HandleNone(r: Receiver)
    ensures HandleAll(r, []) == r
  {
  }

  lemma SyncedPoints(s: State, r: Receiver, accepted: seq<Delivery>, prioOf: nat -> nat)
    requires Synced(s, r, accepted, prioOf)
    ensures Synced(s.(points := Zeros()), r, accepted, prioOf)
  {
  }

  lemma {:induction false} FillQueuesRouted(s: State, n: nat, prioOf: nat -> nat)
    requires Valid(s) && QueuesRouted(s.messages, prioOf)
    ensures QueuesRouted(Fill(s, n).state.messages, prioOf)
    decreases n
  {
    hide *;
    FillUnfold(s, n);
    if n > 0 && Next(s).Some? {
      ServeRouted(s, Next(s).value, prioOf);
      FillQueuesRouted(ServePrio(s, Next(s).value).state, n - 1, prioOf);
    }
  }

  // ----- streams with nothing but empty messages

  /** Of `sid` only empty messages are submitted. */
  ghost predicate NoneFull(subs: seq<Submission>, sid: nat) {
    forall i :: 0 <= i < |subs| && subs[i].sid == sid ==> subs[i].msg.buffer == []
  }

  /** Of `sid` only empty messages are queued. */
  ghost predicate Hollow(qs: seq<seq<Entry>>, sid: nat) {
    forall p, k :: 0 <= p < |qs| && 0 <= k < |qs[p]| && qs[p][k].sid == sid ==> qs[p][k].msg.buffer == []
  }

  lemma CountZero(qs: seq<seq<Entry>>, sid: nat)
    requires Count(qs, sid) == 0
    ensures Hollow(qs, sid)
  {
    if !Hollow(qs, sid) {
      var p, k :| 0 <= p < |qs| && 0 <= k < |qs[p]| && qs[p][k].sid == sid && qs[p][k].msg.buffer != [];
      CountMember(qs, p, k);
    }
  }

  lemma {:induction false} EnqueueAllHollow(s: State, subs: seq<Submission>, sid: nat)
    requires |s.messages| == PRIO_MAX && ValidSubmissions(subs) && Hollow(s.messages, sid) && NoneFull(subs, sid)
    ensures Hollow(EnqueueAll(s, subs).messages, sid)
  {
    if subs != [] {
      EnqueueAllHollow(s, subs[..|subs| - 1], sid);
    }
  }

  lemma ServeHollow(s: State, p: nat, sid: nat)
    requires Servable(s, p) && Hollow(s.messages, sid)
    ensures Hollow(ServePrio(s, p).state.messages, sid)
    ensures forall i :: 0 <= i < |ServePrio(s, p).frames| ==> ServePrio(s, p).frames[i].0 != sid
  {
    hide Weight;
    var qs: seq<seq<Entry>> := s.messages;
    var left: seq<seq<Entry>> := ServePrio(s, p).state.messages;
    forall q, k | 0 <= q < |left| && 0 <= k < |left[q]| && left[q][k].sid == sid
      ensures left[q][k].msg.buffer == []
    {
      if q == p {
        var from := k + |qs[p]| - |left[p]|;
        assert qs[p][from].sid == sid && left[p][k].msg.buffer == qs[p][from].msg.buffer;
      }
    }
    assert qs[p][0].sid == sid ==> qs[p][0].msg.buffer == [];
  }

  /** Frames are made only for streams with a non-empty message queued. */
  lemma {:induction false} FillHollow(s: State, n: nat, sid: nat)
    requires Valid(s) && Hollow(s.messages, sid)
    ensures Hollow(Fill(s, n).state.messages, sid)
    ensures forall i :: 0 <= i < |Fill(s, n).frames| ==> Fill(s, n).frames[i].0 != sid
    decreases n
  {
    hide *;
    FillUnfold(s, n);
    if n > 0 && Next(s).Some? {
      ServeHollow(s, Next(s).value, sid);
      FillHollow(ServePrio(s, Next(s).value).state, n - 1, sid);
    }
  }

  lemma {:induction false} HollowQueue(q: seq<Entry>, sid: nat)
    requires forall k :: 0 <= k < |q| && q[k].sid == sid ==> q[k].msg.buffer == []
    ensures Pending(q, sid) == []
  {
    if q != [] {
      HollowQueue(q[1..], sid);
    }
  }

  /** Such a stream has nothing pending. */
  lemma HollowPending(qs: seq<seq<Entry>>, p: nat, sid: nat)
    requires p < |qs| && Hollow(qs, sid)
    ensures Pending(qs[p], sid) == []
  {
    HollowQueue(qs[p], sid);
  }

  lemma {:induction false} NoPayload(subs: seq<Submission>, sid: nat)
    requires NoneFull(subs, sid)
    ensures Received(Payloads(subs), sid) == []
  {
    if subs != [] {
      NoPayload(subs[..|subs| - 1], sid);
      var sub := subs[|subs| - 1];
      var d := if sub.msg.buffer == [] then [] else [Delivery(sub.sid, sub.msg.buffer)];
      ReceivedConcat(Payloads(subs[..|subs| - 1]), d, sid);
      if d != [] {
        assert |d[..0]| == 0;
      }
    }
  }
}
