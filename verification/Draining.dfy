/** How much there is left to send, and that sending gets it done. */
module Draining {
  import opened Frames
  import opened Prios
  import opened Scheduling
  import opened Arith

  /** How many servings a queued message still takes; an empty one takes one. */
  function Chunks(m: OutgoingMessage): nat {
    if |m.buffer| <= m.cursor then 1 else (|m.buffer| - m.cursor - 1) / FRAME_DATA_SIZE + 1
  }

  function QueueWork(q: seq<Entry>): nat {
    if q == [] then 0 else Chunks(q[0].msg) + QueueWork(q[1..])
  }

  function Work(qs: seq<seq<Entry>>): nat {
    if qs == [] then 0 else QueueWork(qs[0]) + Work(qs[1..])
  }

  function Submitted(subs: seq<Submission>): nat {
    if subs == [] then 0 else Submitted(subs[..|subs| - 1]) + Chunks(subs[|subs| - 1].msg)
  }

  lemma {:induction false} QueueWorkConcat(a: seq<Entry>, b: seq<Entry>)
    ensures QueueWork(a + b) == QueueWork(a) + QueueWork(b)
  {
    if a == [] {
      assert a + b == b;
    } else {
      QueueWorkConcat(a[1..], b);
      assert (a + b)[1..] == a[1..] + b;
    }
  }

  lemma QueueWorkOne(e: Entry)
    ensures QueueWork([e]) == Chunks(e.msg)
  {
    assert |[e][1..]| == 0;
  }

  lemma {:induction false} WorkUpdate(qs: seq<seq<Entry>>, p: nat, q: seq<Entry>)
    requires p < |qs|
    ensures Work(qs[p := q]) + QueueWork(qs[p]) == Work(qs) + QueueWork(q)
  {
    if p == 0 {
      assert qs[p := q][1..] == qs[1..];
    } else {
      WorkUpdate(qs[1..], p - 1, q);
      assert qs[p := q][1..] == qs[1..][p - 1 := q];
    }
  }

  lemma {:induction false} WorkLeft(qs: seq<seq<Entry>>, p: nat)
    requires p < |qs| && qs[p] != []
    ensures Work(qs) > 0
  {
    if p > 0 {
      WorkLeft(qs[1..], p - 1);
    }
  }

  lemma {:induction false} NoWork(qs: seq<seq<Entry>>)
    requires forall p :: 0 <= p < |qs| ==> qs[p] == []
    ensures Work(qs) == 0
  {
    if qs != [] {
      NoWork(qs[1..]);
    }
  }

  /** There is work exactly while something is queued. */
  lemma WorkIsQueued(s: State)
    requires Valid(s)
    ensures Work(s.messages) == 0 <==> s.queued == {}
  {
    if s.queued == {} {
      NoWork(s.messages);
    } else {
      var p :| p in s.queued;
      WorkLeft(s.messages, p);
    }
  }

  /** A serving does one unit of work on its message. */
  lemma ChunkDone(m: OutgoingMessage)
    requires m.Valid() && (m.cursor == 0 || m.cursor < |m.buffer|)
    ensures m.Advanced().Finished() ==> Chunks(m) == 1
    ensures !m.Advanced().Finished() ==> Chunks(m.Advanced()) == Chunks(m) - 1
  {
    if !m.Advanced().Finished() {
      AddOnce(|m.buffer| - m.Advanced().cursor - 1, FRAME_DATA_SIZE);
    }
  }

  lemma ServeWork(s: State, p: nat)
    requires Valid(s) && Servable(s, p)
    ensures Work(ServePrio(s, p).state.messages) == Work(s.messages) - 1
  {
    var q, q' := s.messages[p], ServePrio(s, p).state.messages[p];
    var m := q[0].msg;
    ChunkDone(m);
    hide Valid, Chunks, Weight;
    WorkUpdate(s.messages, p, q');
    assert q == [q[0]] + q[1..];
    QueueWorkOne(q[0]);
    QueueWorkConcat([q[0]], q[1..]);
    if !m.Advanced().Finished() {
      QueueWorkOne(q'[0]);
      QueueWorkConcat([q'[0]], q[1..]);
    }
  }

  lemma {:induction false} EnqueueAllWork(s: State, subs: seq<Submission>)
    requires |s.messages| == PRIO_MAX && ValidSubmissions(subs)
    ensures Work(EnqueueAll(s, subs).messages) == Work(s.messages) + Submitted(subs)
  {
    hide Chunks;
    if subs != [] {
      var sub, t := subs[|subs| - 1], EnqueueAll(s, subs[..|subs| - 1]);
      EnqueueAllWork(s, subs[..|subs| - 1]);
      var e := Entry(sub.sid, sub.msg);
      WorkUpdate(t.messages, sub.prio, t.messages[sub.prio] + [e]);
      QueueWorkConcat(t.messages[sub.prio], [e]);
      QueueWorkOne(e);
    }
  }

  // ----- whole runs

  function SubmittedBy(acts: seq<Act>): nat {
    if acts == [] then 0 else (if acts[0].Submit? then Submitted(acts[0].subs) else 0) + SubmittedBy(acts[1..])
  }

  /** How many of the servings found something to serve. */
  ghost function ServedBy(s: State, acts: seq<Act>): nat
    requires Valid(s) && ValidActs(acts)
    decreases |acts|
  {
    if acts == [] then 0
    else
      StepValid(s, acts[0]);
      (if acts[0].Serve? && Next(s).Some? then 1 else 0) + ServedBy(Step(s, acts[0]).state, acts[1..])
  }

  lemma StepWork(s: State, a: Act)
    requires Valid(s) && a.Valid()
    ensures Work(Step(s, a).state.messages) + (if a.Serve? && Next(s).Some? then 1 else 0) ==
            Work(s.messages) + (if a.Submit? then Submitted(a.subs) else 0)
  {
    NextReady(s);
    match a
    case Submit(subs, reqs) =>
      TakeValid(s, subs, reqs);
      EnqueueAllWork(s, subs);
    case Serve =>
      if Next(s).Some? {
        ServeWork(s, Next(s).value);
      }
  }

  /** Nothing is lost or sent twice: what is left to send is what was there and what was
      submitted, less one for every serving that found something. */
  lemma {:induction false} WorkConserved(s: State, acts: seq<Act>)
    requires Valid(s) && ValidActs(acts)
    ensures Work(Exec(s, acts).state.messages) + ServedBy(s, acts) == Work(s.messages) + SubmittedBy(acts)
    decreases |acts|
  {
    hide Valid, Step, Work;
    if acts != [] {
      StepValid(s, acts[0]);
      StepWork(s, acts[0]);
      WorkConserved(Step(s, acts[0]).state, acts[1..]);
    }
  }

  /** Left alone, the scheduler is done after exactly as many servings as there is work. */
  lemma {:induction false} DrainsOnTime(s: State, k: nat)
    requires Valid(s) && Multiples(s.points) && NoOverflow(s, Servings(k))
    ensures ValidActs(Servings(k)) && (Exec(s, Servings(k)).state.queued == {} <==> k >= Work(s.messages))
    decreases k
  {
    WorkIsQueued(s);
    if k == 0 {
      ExecNothing(s);
    } else {
      ExecServings(s, k);
      FirstServing(s, k);
      NothingPassedOver(s);
      StepPoints(s, Serve);
      StepWork(s, Serve);
      hide Valid, Step, Exec, NoOverflow, Multiples, Work, Servings;
      DrainsOnTime(Step(s, Serve).state, k - 1);
    }
  }

  lemma FirstServing(s: State, k: nat)
    requires Valid(s) && k > 0 && NoOverflow(s, Servings(k))
    ensures !Overflows(s, Serve) && Valid(Step(s, Serve).state) && NoOverflow(Step(s, Serve).state, Servings(k - 1))
  {
    StepValid(s, Serve);
    assert Servings(k)[1..] == Servings(k - 1);
  }
}
