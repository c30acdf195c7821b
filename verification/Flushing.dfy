/** A stream's flush notification fires exactly when its last queued message has
    been cut up, or at once if it has none. */
module Flushing {
  import opened Wrappers
  import opened Prios
  import opened Scheduling

  /** The sender `id` is registered for `sid`, and for no other stream. */
  ghost predicate Waiting(s: State, sid: nat, id: nat) {
    && sid in s.owned && s.owned[sid].notify == Some(id)
    && forall t: nat :: t in s.owned && t != sid ==> s.owned[t].notify != Some(id)
  }

  ghost predicate OtherRequests(reqs: seq<FlushRequest>, sid: nat, id: nat) {
    forall i :: 0 <= i < |reqs| ==> reqs[i].sid != sid && reqs[i].id != id
  }

  /** One pending flush per stream: the run registers nobody else for `sid`, and
      `id` nowhere else. */
  ghost predicate OnlyPending(acts: seq<Act>, sid: nat, id: nat) {
    forall i :: 0 <= i < |acts| ==> acts[i].Submit? ==> OtherRequests(acts[i].reqs, sid, id)
  }

  /** Some state of the run has no message of `sid` queued. */
  ghost predicate EverFlushed(s: State, acts: seq<Act>, sid: nat)
    requires Valid(s) && ValidActs(acts)
    decreases |acts|
  {
    Count(s.messages, sid) == 0 ||
    (acts != [] && (StepValid(s, acts[0]); EverFlushed(Step(s, acts[0]).state, acts[1..], sid)))
  }

  lemma {:induction false} EnqueueAllWaiting(s: State, subs: seq<Submission>, sid: nat, id: nat)
    requires |s.messages| == PRIO_MAX && ValidSubmissions(subs) && Waiting(s, sid, id)
    ensures Waiting(EnqueueAll(s, subs), sid, id)
  {
    if subs != [] {
      EnqueueAllWaiting(s, subs[..|subs| - 1], sid, id);
    }
  }

  lemma {:induction false} RegisterAllWaiting(o: Outcome, reqs: seq<FlushRequest>, sid: nat, id: nat)
    requires Waiting(o.state, sid, id) && OtherRequests(reqs, sid, id)
    ensures Waiting(RegisterAll(o, reqs).state, sid, id)
    ensures id in RegisterAll(o, reqs).notified <==> id in o.notified
  {
    if reqs != [] {
      RegisterAllWaiting(o, reqs[..|reqs| - 1], sid, id);
    }
  }

  lemma StepWaiting(s: State, a: Act, sid: nat, id: nat)
    requires Valid(s) && a.Valid() && Waiting(s, sid, id)
    requires a.Submit? ==> OtherRequests(a.reqs, sid, id)
    ensures var o := Step(s, a);
      if Count(o.state.messages, sid) == 0 then id in o.notified
      else id !in o.notified && Waiting(o.state, sid, id)
  {
    StepValid(s, a);
    if a.Submit? {
      EnqueueAllWaiting(s, a.subs, sid, id);
      RegisterAllWaiting(Outcome(EnqueueAll(s, a.subs), [], []), a.reqs, sid, id);
    } else {
      NextReady(s);
    }
  }

  /** Whatever a run does, `id` is told within it exactly if the run passes a state
      in which the stream has nothing queued. Holding for every run, and so for
      every prefix of one, this fixes the very step of the notification. */
  lemma {:induction false} FlushExact(s: State, acts: seq<Act>, sid: nat, id: nat)
    requires Valid(s) && ValidActs(acts) && Waiting(s, sid, id) && OnlyPending(acts, sid, id)
    ensures id in Exec(s, acts).notified <==> EverFlushed(s, acts, sid)
    decreases |acts|
  {
    if acts != [] {
      StepWaiting(s, acts[0], sid, id);
      StepValid(s, acts[0]);
      var o := Step(s, acts[0]);
      if Count(o.state.messages, sid) != 0 {
        FlushExact(o.state, acts[1..], sid, id);
      }
    }
  }

  /** Taking in a request: a stream with nothing queued is answered at once, any
      other is left waiting. */
  lemma {:induction false} RequestAnswered(s: State, subs: seq<Submission>, reqs: seq<FlushRequest>, k: nat)
    requires Valid(s) && ValidSubmissions(subs) && k < |reqs|
    requires forall i :: 0 <= i < |reqs| && i != k ==> reqs[i].sid != reqs[k].sid && reqs[i].id != reqs[k].id
    requires forall t: nat :: t in s.owned ==> s.owned[t].notify != Some(reqs[k].id)
    ensures var o := Take(s, subs, reqs);
      if Count(o.state.messages, reqs[k].sid) == 0 then reqs[k].id in o.notified
      else reqs[k].id !in o.notified && Waiting(o.state, reqs[k].sid, reqs[k].id)
  {
    Shape(s);
    hide Valid, Count, EnqueueAll, RegisterAll, Waiting;
    TakeValid(s, subs, reqs);
    EnqueueAllValid(s, subs);
    EnqueueAllUnused(s, subs, reqs[k].id);
    OwnedIsQueued(EnqueueAll(s, subs), reqs[k].sid);
    RegisterAllAnswers(Outcome(EnqueueAll(s, subs), [], []), reqs, k);
  }

  lemma RegisterAllAnswers(o: Outcome, reqs: seq<FlushRequest>, k: nat)
    requires k < |reqs| && o.notified == []
    requires forall i :: 0 <= i < |reqs| && i != k ==> reqs[i].sid != reqs[k].sid && reqs[i].id != reqs[k].id
    requires forall t: nat :: t in o.state.owned ==> o.state.owned[t].notify != Some(reqs[k].id)
    ensures if reqs[k].sid !in o.state.owned then reqs[k].id in RegisterAll(o, reqs).notified
            else reqs[k].id !in RegisterAll(o, reqs).notified &&
                 Waiting(RegisterAll(o, reqs).state, reqs[k].sid, reqs[k].id)
  {
    var sid, id := reqs[k].sid, reqs[k].id;
    RegisterAllUnused(o, reqs[..k], id);
    RegisterAllOwned(o, reqs[..k]);
    var o' := Register(RegisterAll(o, reqs[..k]), reqs[k]);
    assert reqs[..k + 1][..k] == reqs[..k];
    assert o' == RegisterAll(o, reqs[..k + 1]);
    RegisterAllSplit(o, reqs, k + 1);
    hide RegisterAll;
    if sid in o'.state.owned {
      RegisterAllWaiting(o', reqs[k + 1..], sid, id);
    } else {
      RegisterAllNotified(o', reqs[k + 1..], id);
    }
  }

  lemma {:induction false} RegisterAllOwned(o: Outcome, reqs: seq<FlushRequest>)
    ensures RegisterAll(o, reqs).state.owned.Keys == o.state.owned.Keys
  {
    if reqs != [] {
      RegisterAllOwned(o, reqs[..|reqs| - 1]);
    }
  }

  lemma OwnedIsQueued(s: State, sid: nat)
    requires Valid(s)
    ensures sid in s.owned <==> Count(s.messages, sid) > 0
  {
  }

  lemma {:induction false} EnqueueAllUnused(s: State, subs: seq<Submission>, id: nat)
    requires |s.messages| == PRIO_MAX && ValidSubmissions(subs)
    requires forall t: nat :: t in s.owned ==> s.owned[t].notify != Some(id)
    ensures forall t: nat :: t in EnqueueAll(s, subs).owned ==> EnqueueAll(s, subs).owned[t].notify != Some(id)
  {
    if subs != [] {
      EnqueueAllUnused(s, subs[..|subs| - 1], id);
    }
  }

  lemma {:induction false} RegisterAllUnused(o: Outcome, reqs: seq<FlushRequest>, id: nat)
    requires forall t: nat :: t in o.state.owned ==> o.state.owned[t].notify != Some(id)
    requires forall i :: 0 <= i < |reqs| ==> reqs[i].id != id
    ensures forall t: nat :: t in RegisterAll(o, reqs).state.owned ==>
              RegisterAll(o, reqs).state.owned[t].notify != Some(id)
    ensures id in RegisterAll(o, reqs).notified <==> id in o.notified
  {
    if reqs != [] {
      RegisterAllUnused(o, reqs[..|reqs| - 1], id);
    }
  }

  lemma {:induction false} RegisterAllNotified(o: Outcome, reqs: seq<FlushRequest>, id: nat)
    requires id in o.notified
    ensures id in RegisterAll(o, reqs).notified
  {
    if reqs != [] {
      RegisterAllNotified(o, reqs[..|reqs| - 1], id);
    }
  }

  lemma {:induction false} RegisterAllSplit(o: Outcome, reqs: seq<FlushRequest>, k: nat)
    requires k <= |reqs|
    ensures RegisterAll(o, reqs) == RegisterAll(RegisterAll(o, reqs[..k]), reqs[k..])
    decreases |reqs|
  {
    if k == |reqs| {
      assert reqs[..k] == reqs && reqs[k..] == [];
    } else {
      var n := |reqs| - 1;
      RegisterAllSplit(o, reqs[..n], k);
      assert reqs[..n][..k] == reqs[..k] && reqs[..n][k..] == reqs[k..][..n - k];
    }
  }
}
