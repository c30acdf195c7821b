/** The message scheduler of network/src/prios.rs: 64 queues, one per priority,
    each charged its weight in points every time it is served. */
module Prios {
  import opened Wrappers
  import opened Frames

  const PRIO_MAX: nat := 64
  const U32_SIZE: nat := 0x1_0000_0000
  const U32_MAX: nat := U32_SIZE - 1

  const MAX_WEIGHT: nat := 620838

  /** The table `PRIOS`: what one serving of priority `p` costs. */
  function Weight(p: nat): (w: nat)
    requires p < PRIO_MAX
    ensures 100 <= w <= MAX_WEIGHT
  {
    match p
    case 0 => 100 case 1 => 115 case 2 => 132 case 3 => 152 case 4 => 174
    case 5 => 200 case 6 => 230 case 7 => 264 case 8 => 303 case 9 => 348
    case 10 => 400 case 11 => 459 case 12 => 528 case 13 => 606 case 14 => 696
    case 15 => 800 case 16 => 919 case 17 => 1056 case 18 => 1213 case 19 => 1393
    case 20 => 1600 case 21 => 1838 case 22 => 2111 case 23 => 2425 case 24 => 2786
    case 25 => 3200 case 26 => 3676 case 27 => 4222 case 28 => 4850 case 29 => 5572
    case 30 => 6400 case 31 => 7352 case 32 => 8445 case 33 => 9701 case 34 => 11143
    case 35 => 12800 case 36 => 14703 case 37 => 16890 case 38 => 19401 case 39 => 22286
    case 40 => 25600 case 41 => 29407 case 42 => 33779 case 43 => 38802 case 44 => 44572
    case 45 => 51200 case 46 => 58813 case 47 => 67559 case 48 => 77605 case 49 => 89144
    case 50 => 102400 case 51 => 117627 case 52 => 135118 case 53 => 155209 case 54 => 178289
    case 55 => 204800 case 56 => 235253 case 57 => 270235 case 58 => 310419 case 59 => 356578
    case 60 => 409600 case 61 => 470507 case 62 => 540470 case _ => 620838
  }

  datatype Entry = Entry(sid: nat, msg: OutgoingMessage)

  /** `notify` names the oneshot sender waiting for the stream to be flushed. */
  datatype SidInfo = SidInfo(len: nat, notify: Option<nat>)

  datatype Submission = Submission(prio: nat, sid: nat, msg: OutgoingMessage)

  datatype FlushRequest = FlushRequest(sid: nat, id: nat)

  datatype State = State(
    points: seq<nat>,
    messages: seq<seq<Entry>>,
    queued: set<nat>,
    owned: map<nat, SidInfo>)

  datatype Outcome = Outcome(state: State, frames: seq<TaggedFrame>, notified: seq<nat>)

  function Zeros(): seq<nat> {
    seq(PRIO_MAX, _ => 0)
  }

  function Initial(): State {
    State(Zeros(), seq(PRIO_MAX, _ => []), {}, map[])
  }

  // ----- counting the queued messages of a stream

  function CountIn(q: seq<Entry>, sid: nat): nat {
    if q == [] then 0 else (if q[0].sid == sid then 1 else 0) + CountIn(q[1..], sid)
  }

  function Count(qs: seq<seq<Entry>>, sid: nat): nat {
    if qs == [] then 0 else CountIn(qs[0], sid) + Count(qs[1..], sid)
  }

  lemma {:induction false} CountInConcat(a: seq<Entry>, b: seq<Entry>, sid: nat)
    ensures CountIn(a + b, sid) == CountIn(a, sid) + CountIn(b, sid)
  {
    if a == [] {
      assert a + b == b;
    } else {
      CountInConcat(a[1..], b, sid);
      assert (a + b)[1..] == a[1..] + b;
    }
  }

  lemma {:induction false} CountUpdate(qs: seq<seq<Entry>>, p: nat, q: seq<Entry>, sid: nat)
    requires p < |qs|
    ensures Count(qs[p := q], sid) + CountIn(qs[p], sid) == Count(qs, sid) + CountIn(q, sid)
  {
    if p == 0 {
      assert qs[p := q][1..] == qs[1..];
    } else {
      CountUpdate(qs[1..], p - 1, q, sid);
      assert qs[p := q][1..] == qs[1..][p - 1 := q];
    }
  }

  lemma {:induction false} CountEmpty(qs: seq<seq<Entry>>, sid: nat)
    requires forall p :: 0 <= p < |qs| ==> qs[p] == []
    ensures Count(qs, sid) == 0
  {
    if qs != [] {
      CountEmpty(qs[1..], sid);
    }
  }

  lemma {:induction false} CountInMember(q: seq<Entry>, k: nat)
    requires k < |q|
    ensures CountIn(q, q[k].sid) > 0
  {
    if k > 0 {
      CountInMember(q[1..], k - 1);
    }
  }

  /** A queued message is counted for its stream. */
  lemma {:induction false} CountMember(qs: seq<seq<Entry>>, p: nat, k: nat)
    requires p < |qs| && k < |qs[p]|
    ensures Count(qs, qs[p][k].sid) > 0
  {
    if p == 0 {
      CountInMember(qs[0], k);
    } else {
      CountMember(qs[1..], p - 1, k);
    }
  }

  // ----- the invariant

  /** Only the head of a queue may have been cut into; nothing queued is used up. */
  predicate ValidQueue(q: seq<Entry>) {
    forall k :: 0 <= k < |q| ==>
      && q[k].msg.Valid()
      && (q[k].msg.cursor == 0 || (k == 0 && q[k].msg.cursor < |q[k].msg.buffer|))
  }

  ghost predicate Counted(owned: map<nat, SidInfo>, qs: seq<seq<Entry>>) {
    forall sid: nat ::
      && (sid in owned <==> Count(qs, sid) > 0)
      && (sid in owned ==> owned[sid].len == Count(qs, sid))
  }

  ghost predicate Valid(s: State) {
    && |s.points| == PRIO_MAX
    && |s.messages| == PRIO_MAX
    && (forall p :: 0 <= p < PRIO_MAX ==> s.points[p] < U32_SIZE)
    && (forall p :: 0 <= p < PRIO_MAX ==> ValidQueue(s.messages[p]))
    && (forall p :: p in s.queued <==> 0 <= p < PRIO_MAX && s.messages[p] != [])
    && Counted(s.owned, s.messages)
  }

  lemma Shape(s: State)
    requires Valid(s)
    ensures |s.points| == |s.messages| == PRIO_MAX
  {
  }

  /** Priorities are 0 to 63 and a fresh message starts at its first byte. */
  predicate ValidSubmission(sub: Submission) {
    sub.prio < PRIO_MAX && sub.msg.cursor == 0
  }

  predicate ValidSubmissions(subs: seq<Submission>) {
    forall i :: 0 <= i < |subs| ==> ValidSubmission(subs[i])
  }

  // ----- tick: taking in new messages and flush requests

  function Enqueue(s: State, sub: Submission): (r: State)
    requires |s.messages| == PRIO_MAX && ValidSubmission(sub)
    ensures |r.messages| == PRIO_MAX
  {
    var info := if sub.sid in s.owned then s.owned[sub.sid] else SidInfo(0, None);
    s.(queued := s.queued + {sub.prio},
       messages := s.messages[sub.prio := s.messages[sub.prio] + [Entry(sub.sid, sub.msg)]],
       owned := s.owned[sub.sid := info.(len := info.len + 1)])
  }

  function EnqueueAll(s: State, subs: seq<Submission>): (r: State)
    requires |s.messages| == PRIO_MAX && ValidSubmissions(subs)
    ensures |r.messages| == PRIO_MAX
  {
    if subs == [] then s
    else Enqueue(EnqueueAll(s, subs[..|subs| - 1]), subs[|subs| - 1])
  }

  /** A stream with messages still queued keeps the sender; any other is answered
      at once. */
  function Register(o: Outcome, req: FlushRequest): Outcome {
    if req.sid in o.state.owned then
      o.(state := o.state.(owned := o.state.owned[req.sid := o.state.owned[req.sid].(notify := Some(req.id))]))
    else
      o.(notified := o.notified + [req.id])
  }

  function RegisterAll(o: Outcome, reqs: seq<FlushRequest>): Outcome {
    if reqs == [] then o
    else Register(RegisterAll(o, reqs[..|reqs| - 1]), reqs[|reqs| - 1])
  }

  function Take(s: State, subs: seq<Submission>, reqs: seq<FlushRequest>): Outcome
    requires |s.messages| == PRIO_MAX && ValidSubmissions(subs)
  {
    RegisterAll(Outcome(EnqueueAll(s, subs), [], []), reqs)
  }

  // ----- choosing and serving a priority

  /** Fewest points first, lowest priority number among equals. */
  predicate Before(points: seq<nat>, p: nat, q: nat)
    requires p < |points| && q < |points|
  {
    points[p] < points[q] || (points[p] == points[q] && p <= q)
  }

  /** The answer of `calc_next_prio`. Its running minimum starts at `u32::MAX`, so
      a priority holding exactly that many points is passed over. */
  ghost predicate IsNext(points: seq<nat>, queued: set<nat>, r: Option<nat>)
    requires forall p :: p in queued ==> 0 <= p < |points|
  {
    match r
    case None => forall p :: p in queued ==> points[p] >= U32_MAX
    case Some(n) => n in queued && points[n] < U32_MAX && forall p :: p in queued ==> Before(points, n, p)
  }

  function NextBelow(points: seq<nat>, queued: set<nat>, n: nat): Option<nat>
    requires n <= |points|
  {
    if n == 0 then None
    else
      var best := NextBelow(points, queued, n - 1);
      if n - 1 in queued && points[n - 1] < U32_MAX &&
         (best.None? || best.value >= |points| || points[n - 1] < points[best.value])
      then Some(n - 1) else best
  }

  function Next(s: State): Option<nat>
    requires |s.points| == PRIO_MAX
  {
    NextBelow(s.points, s.queued, |s.points|)
  }

  lemma {:induction false} NextBelowIsNext(points: seq<nat>, queued: set<nat>, n: nat)
    requires n <= |points|
    requires forall p :: p in queued ==> 0 <= p < |points|
    ensures IsNext(points, (set p | p in queued && p < n), NextBelow(points, queued, n))
  {
    if n > 0 {
      NextBelowIsNext(points, queued, n - 1);
      var before, upto := set p | p in queued && p < n - 1, set p | p in queued && p < n;
      assert forall p :: p in upto <==> p in before || (p == n - 1 && p in queued);
    }
  }

  /** `Next` is the lexicographic minimum of (points, priority), and the only
      answer with that property. */
  lemma NextIsNext(s: State)
    requires Valid(s)
    ensures IsNext(s.points, s.queued, Next(s))
    ensures forall r :: IsNext(s.points, s.queued, r) ==> r == Next(s)
  {
    NextBelowIsNext(s.points, s.queued, |s.points|);
    assert (set p | p in s.queued && p < |s.points|) == s.queued;
  }

  /** The counter of a stream after one of its messages is finished. */
  function Released(owned: map<nat, SidInfo>, sid: nat): map<nat, SidInfo>
    requires sid in owned && owned[sid].len > 0
  {
    if owned[sid].len == 1 then owned - {sid}
    else owned[sid := owned[sid].(len := owned[sid].len - 1)]
  }

  /** Who is told that the stream is flushed when one of its messages is finished. */
  function Notices(owned: map<nat, SidInfo>, sid: nat): seq<nat>
    requires sid in owned && owned[sid].len > 0
  {
    if owned[sid].len == 1 && owned[sid].notify.Some? then [owned[sid].notify.value] else []
  }

  /** The queue head can be popped and its stream's counter is there to decrease. */
  ghost predicate Servable(s: State, p: nat) {
    && |s.points| == |s.messages| == PRIO_MAX
    && p < PRIO_MAX && s.messages[p] != []
    && s.messages[p][0].msg.Valid()
    && s.messages[p][0].sid in s.owned && s.owned[s.messages[p][0].sid].len > 0
  }

  function ServePrio(s: State, p: nat): Outcome
    requires Servable(s, p)
  {
    var points := s.points[p := (s.points[p] + Weight(p)) % U32_SIZE];
    var head, rest := s.messages[p][0], s.messages[p][1..];
    var msg := head.msg.Advanced();
    var frames := head.msg.NextFrames(head.sid);
    if msg.Finished() then
      Outcome(
        State(points, s.messages[p := rest], if rest == [] then s.queued - {p} else s.queued,
              Released(s.owned, head.sid)),
        frames, Notices(s.owned, head.sid))
    else
      Outcome(s.(points := points, messages := s.messages[p := [Entry(head.sid, msg)] + rest]), frames, [])
  }

  lemma ValidServable(s: State, p: nat)
    requires Valid(s) && p in s.queued
    ensures Servable(s, p)
  {
    CountMember(s.messages, p, 0);
  }

  function Then(o: Outcome, next: Outcome): Outcome {
    Outcome(next.state, o.frames + next.frames, o.notified + next.notified)
  }

  /** A chosen priority can be served, and serving it keeps the invariant. */
  lemma NextReady(s: State)
    requires Valid(s)
    ensures Next(s).Some? ==> Servable(s, Next(s).value) && Valid(ServePrio(s, Next(s).value).state)
  {
    NextIsNext(s);
    if Next(s).Some? {
      ValidServable(s, Next(s).value);
      ServePrioValid(s, Next(s).value);
    }
  }

  /** `fill_frames` after its tick: up to `n` servings, stopping with all points
      cleared as soon as no priority can be chosen. */
  function Fill(s: State, n: nat): Outcome
    requires Valid(s)
    decreases n
  {
    if n == 0 then Outcome(s, [], [])
    else
      NextReady(s);
      if Next(s).None? then Outcome(s.(points := Zeros()), [], [])
      else
        var o := ServePrio(s, Next(s).value);
        Then(o, Fill(o.state, n - 1))
  }

  lemma FillUnfold(s: State, n: nat)
    requires Valid(s)
    ensures |s.points| == |s.messages| == PRIO_MAX
    ensures n == 0 ==> Fill(s, n) == Outcome(s, [], [])
    ensures n > 0 && Next(s).None? ==> Fill(s, n) == Outcome(s.(points := Zeros()), [], [])
    ensures n > 0 && Next(s).Some? ==>
      && Servable(s, Next(s).value) && Valid(ServePrio(s, Next(s).value).state)
      && Fill(s, n) == Then(ServePrio(s, Next(s).value), Fill(ServePrio(s, Next(s).value).state, n - 1))
      && Fill(s, n).state == Fill(ServePrio(s, Next(s).value).state, n - 1).state
      && Fill(s, n).frames ==
         ServePrio(s, Next(s).value).frames + Fill(ServePrio(s, Next(s).value).state, n - 1).frames
      && Fill(s, n).notified ==
         ServePrio(s, Next(s).value).notified + Fill(ServePrio(s, Next(s).value).state, n - 1).notified
  {
    NextReady(s);
  }

  // ----- the invariant is kept

  lemma EnqueueValid(s: State, sub: Submission)
    requires Valid(s) && ValidSubmission(sub)
    ensures Valid(Enqueue(s, sub))
  {
    var r := Enqueue(s, sub);
    var q := s.messages[sub.prio];
    forall sid: nat
      ensures Count(r.messages, sid) == Count(s.messages, sid) + (if sid == sub.sid then 1 else 0)
    {
      CountUpdate(s.messages, sub.prio, q + [Entry(sub.sid, sub.msg)], sid);
      CountInConcat(q, [Entry(sub.sid, sub.msg)], sid);
    }
  }

  lemma {:induction false} EnqueueAllValid(s: State, subs: seq<Submission>)
    requires Valid(s) && ValidSubmissions(subs)
    ensures Valid(EnqueueAll(s, subs))
  {
    if subs != [] {
      EnqueueAllValid(s, subs[..|subs| - 1]);
      EnqueueValid(EnqueueAll(s, subs[..|subs| - 1]), subs[|subs| - 1]);
    }
  }

  lemma {:induction false} RegisterAllValid(o: Outcome, reqs: seq<FlushRequest>)
    requires Valid(o.state)
    ensures Valid(RegisterAll(o, reqs).state)
    ensures RegisterAll(o, reqs).frames == o.frames
    ensures RegisterAll(o, reqs).state == o.state.(owned := RegisterAll(o, reqs).state.owned)
  {
    if reqs != [] {
      RegisterAllValid(o, reqs[..|reqs| - 1]);
    }
  }

  lemma TakeValid(s: State, subs: seq<Submission>, reqs: seq<FlushRequest>)
    requires Valid(s) && ValidSubmissions(subs)
    ensures Valid(Take(s, subs, reqs).state)
    ensures Take(s, subs, reqs).frames == []
    ensures Take(s, subs, reqs).state == EnqueueAll(s, subs).(owned := Take(s, subs, reqs).state.owned)
  {
    EnqueueAllValid(s, subs);
    RegisterAllValid(Outcome(EnqueueAll(s, subs), [], []), reqs);
  }

  /** How a serving changes the number of queued messages of each stream. */
  lemma ServeCounts(s: State, p: nat, sid: nat)
    requires Servable(s, p)
    ensures Count(ServePrio(s, p).state.messages, sid) ==
            Count(s.messages, sid) -
            (if s.messages[p][0].sid == sid && s.messages[p][0].msg.Advanced().Finished() then 1 else 0)
  {
    var q := s.messages[p];
    var moved := [Entry(q[0].sid, q[0].msg.Advanced())] + q[1..];
    assert moved[1..] == q[1..];
    CountUpdate(s.messages, p, q[1..], sid);
    CountUpdate(s.messages, p, moved, sid);
  }

  lemma ServePrioValid(s: State, p: nat)
    requires Valid(s) && p in s.queued
    requires Servable(s, p)
    ensures Valid(ServePrio(s, p).state)
  {
    var r := ServePrio(s, p).state;
    forall sid: nat
      ensures sid in r.owned <==> Count(r.messages, sid) > 0
      ensures sid in r.owned ==> r.owned[sid].len == Count(r.messages, sid)
    {
      ServeCounts(s, p, sid);
    }
    assert ValidQueue(r.messages[p]) by {
      var q, q' := s.messages[p], r.messages[p];
      assert forall k :: 0 < k < |q'| ==> q'[k] == q[k + |q| - |q'|];
      if |q'| < |q| && q' != [] {
        assert q'[0] == q[1];
      }
    }
  }

  /** Every reachable state has `queued` equal to the non-empty queues and
      `sid_owned` equal to the number of queued messages of each stream. */
  lemma {:induction false} FillValid(s: State, n: nat)
    requires Valid(s)
    ensures Valid(Fill(s, n).state)
    decreases n
  {
    if n > 0 {
      NextReady(s);
      if Next(s).Some? {
        FillValid(ServePrio(s, Next(s).value).state, n - 1);
      }
    }
  }

  lemma InitialValid()
    ensures Valid(Initial())
  {
    forall sid: nat ensures Count(Initial().messages, sid) == 0 {
      CountEmpty(Initial().messages, sid);
    }
  }
}
