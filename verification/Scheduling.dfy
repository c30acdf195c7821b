/** What the scheduler guarantees over whole runs: shares in proportion to the
    weights, a bound on waiting, no arithmetic overflow for a known number of
    servings, and exact flush notifications. */
module Scheduling {
  import opened Wrappers
  import opened Frames
  import opened Prios
  import opened Arith

  /** One `fill_frames` call is a `Submit` (its tick) followed by `Serve` steps. A
      `Serve` that finds nothing to choose clears the points. */
  datatype Act =
    | Submit(subs: seq<Submission>, reqs: seq<FlushRequest>)
    | Serve
  {
    predicate Valid() {
      Submit? ==> ValidSubmissions(subs)
    }
  }

  predicate ValidActs(acts: seq<Act>) {
    forall i :: 0 <= i < |acts| ==> acts[i].Valid()
  }

  function Step(s: State, a: Act): Outcome
    requires Valid(s) && a.Valid()
  {
    match a
    case Submit(subs, reqs) => Take(s, subs, reqs)
    case Serve =>
      NextReady(s);
      if Next(s).None? then Outcome(s.(points := Zeros()), [], [])
      else ServePrio(s, Next(s).value)
  }

  lemma StepValid(s: State, a: Act)
    requires Valid(s) && a.Valid()
    ensures Valid(Step(s, a).state)
  {
    if a.Submit? {
      TakeValid(s, a.subs, a.reqs);
    } else {
      NextReady(s);
    }
  }

  function Exec(s: State, acts: seq<Act>): Outcome
    requires Valid(s) && ValidActs(acts)
    decreases |acts|
  {
    if acts == [] then Outcome(s, [], [])
    else
      StepValid(s, acts[0]);
      var o := Step(s, acts[0]);
      Then(o, Exec(o.state, acts[1..]))
  }

  /** Every state a run reaches is valid: `queued` is the set of non-empty queues
      and each stream's counter is the number of its queued messages. */
  lemma {:induction false} ExecValid(s: State, acts: seq<Act>)
    requires Valid(s) && ValidActs(acts)
    ensures Valid(Exec(s, acts).state)
    decreases |acts|
  {
    if acts != [] {
      StepValid(s, acts[0]);
      ExecValid(Step(s, acts[0]).state, acts[1..]);
    }
  }

  function Servings(n: nat): (acts: seq<Act>)
    ensures |acts| == n && ValidActs(acts) && forall i :: 0 <= i < n ==> acts[i] == Serve
  {
    seq(n, _ => Serve)
  }

  /** The loop of `fill_frames` is a run of at most `n` servings. */
  lemma {:induction false} FillIsRun(s: State, n: nat) returns (k: nat)
    requires Valid(s)
    ensures k <= n && Fill(s, n) == Exec(s, Servings(k))
    ensures k < n ==> Fill(s, n).state.points == Zeros()
    decreases n
  {
    hide Fill, Exec, Valid, ServePrio, Next;
    k := 0;
    FillUnfold(s, n);
    ExecNothing(s);
    if n > 0 {
      StepValid(s, Serve);
      var o := Step(s, Serve);
      ExecNothing(o.state);
      if Next(s).Some? {
        k := FillIsRun(o.state, n - 1);
      }
      k := k + 1;
      ExecServings(s, k);
    }
  }

  lemma ExecNothing(s: State)
    requires Valid(s)
    ensures Exec(s, Servings(0)) == Outcome(s, [], [])
  {
  }

  lemma ExecServings(s: State, k: nat)
    requires Valid(s) && k > 0
    ensures Valid(Step(s, Serve).state)
    ensures Exec(s, Servings(k)) == Then(Step(s, Serve), Exec(Step(s, Serve).state, Servings(k - 1)))
  {
    StepValid(s, Serve);
    assert Servings(k)[1..] == Servings(k - 1);
  }

  // ----- counting servings and overflow

  function IsServe(s: State, a: Act, p: nat): nat
    requires Valid(s)
  {
    if a.Serve? && Next(s) == Some(p) then 1 else 0
  }

  /** How often priority `p` is served in the run. */
  function Served(s: State, acts: seq<Act>, p: nat): nat
    requires Valid(s) && ValidActs(acts)
    decreases |acts|
  {
    if acts == [] then 0
    else
      StepValid(s, acts[0]);
      IsServe(s, acts[0], p) + Served(Step(s, acts[0]).state, acts[1..], p)
  }

  function ServeCount(acts: seq<Act>): nat {
    if acts == [] then 0 else (if acts[0].Serve? then 1 else 0) + ServeCount(acts[1..])
  }

  /** The u32 addition of a serving wraps (a panic in builds with overflow checks). */
  predicate Overflows(s: State, a: Act)
    requires Valid(s)
  {
    a.Serve? && Next(s).Some? && Next(s).value < PRIO_MAX &&
    s.points[Next(s).value] + Weight(Next(s).value) >= U32_SIZE
  }

  predicate NoOverflow(s: State, acts: seq<Act>)
    requires Valid(s) && ValidActs(acts)
    decreases |acts|
  {
    acts == [] ||
    (!Overflows(s, acts[0]) &&
     (StepValid(s, acts[0]); NoOverflow(Step(s, acts[0]).state, acts[1..])))
  }

  /** Points only ever grow by the weight of their priority. */
  predicate Multiples(points: seq<nat>)
    requires |points| == PRIO_MAX
  {
    forall p {:trigger points[p]} :: 0 <= p < PRIO_MAX ==> points[p] % Weight(p) == 0
  }

  lemma SentinelIsNoMultiple(p: nat)
    requires p < PRIO_MAX
    ensures U32_MAX % Weight(p) != 0
  {
  }

  /** As long as points are multiples of their weight, the `u32::MAX` the search
      starts from is never a queue's points, so nothing queued is passed over. */
  lemma NothingPassedOver(s: State)
    requires Valid(s) && Multiples(s.points)
    ensures Next(s).None? <==> s.queued == {}
  {
    NextIsNext(s);
    forall p | p in s.queued
      ensures s.points[p] < U32_MAX
    {
      SentinelIsNoMultiple(p);
    }
  }

  lemma MultiplesUpdate(points: seq<nat>, n: nat)
    requires |points| == PRIO_MAX && n < PRIO_MAX && Multiples(points)
    ensures Multiples(points[n := points[n] + Weight(n)])
  {
    hide Weight;
    AddOnce(points[n], Weight(n));
  }

  lemma ZerosAreMultiples()
    ensures Multiples(Zeros())
  {
  }

  /** One step without overflow: points change only by serving the chosen one, or
      are cleared when nothing is queued. */
  lemma StepPoints(s: State, a: Act)
    requires Valid(s) && a.Valid() && Multiples(s.points) && !Overflows(s, a)
    ensures var t := Step(s, a).state;
      && |t.points| == PRIO_MAX && Multiples(t.points)
      && (a.Submit? ==> t.points == s.points)
      && (a.Serve? && s.queued == {} ==> t.points == Zeros())
      && (a.Serve? && s.queued != {} ==>
            && Next(s).Some? && Next(s).value in s.queued
            && t.points == s.points[Next(s).value := s.points[Next(s).value] + Weight(Next(s).value)])
  {
    hide Weight, Multiples;
    NothingPassedOver(s);
    if a.Submit? {
      TakeValid(s, a.subs, a.reqs);
      EnqueueAllPoints(s, a.subs);
    } else if s.queued == {} {
      ZerosAreMultiples();
    } else {
      NextIsNext(s);
      NextReady(s);
      MultiplesUpdate(s.points, Next(s).value);
    }
  }

  lemma {:induction false} EnqueueAllPoints(s: State, subs: seq<Submission>)
    requires |s.messages| == PRIO_MAX && ValidSubmissions(subs)
    ensures EnqueueAll(s, subs).points == s.points
    ensures s.queued <= EnqueueAll(s, subs).queued
  {
    if subs != [] {
      EnqueueAllPoints(s, subs[..|subs| - 1]);
    }
  }

  /** Without overflow points are multiples of their weights in every state a run from
      such a state reaches, and so in every state reached from the start. */
  lemma {:induction false} ExecMultiples(s: State, acts: seq<Act>)
    requires Valid(s) && ValidActs(acts) && NoOverflow(s, acts) && Multiples(s.points)
    ensures |Exec(s, acts).state.points| == PRIO_MAX && Multiples(Exec(s, acts).state.points)
    decreases |acts|
  {
    Shape(s);
    hide Weight, Multiples, Step, Valid;
    if acts != [] {
      StepPoints(s, acts[0]);
      StepValid(s, acts[0]);
      ExecMultiples(Step(s, acts[0]).state, acts[1..]);
    }
  }

  lemma ReachableMultiples(acts: seq<Act>)
    requires (InitialValid(); ValidActs(acts) && NoOverflow(Initial(), acts))
    ensures (InitialValid();
      var t := Exec(Initial(), acts).state; |t.points| == PRIO_MAX && Multiples(t.points) && Valid(t))
  {
    InitialValid();
    ZerosAreMultiples();
    ExecMultiples(Initial(), acts);
    ExecValid(Initial(), acts);
  }

  // ----- weighted fairness

  ghost predicate StaysQueued(s: State, acts: seq<Act>, p: nat)
    requires Valid(s) && ValidActs(acts)
    decreases |acts|
  {
    p in s.queued &&
    (acts == [] || (StepValid(s, acts[0]); StaysQueued(Step(s, acts[0]).state, acts[1..], p)))
  }

  /** What the run charges to priority `p`. */
  function Charged(s: State, acts: seq<Act>, p: nat): nat
    requires Valid(s) && ValidActs(acts) && p < PRIO_MAX
    decreases |acts|
  {
    if acts == [] then 0
    else
      StepValid(s, acts[0]);
      (if IsServe(s, acts[0], p) == 1 then Weight(p) else 0) + Charged(Step(s, acts[0]).state, acts[1..], p)
  }

  lemma {:induction false} ChargedIsServed(s: State, acts: seq<Act>, p: nat)
    requires Valid(s) && ValidActs(acts) && p < PRIO_MAX
    ensures Charged(s, acts, p) == Served(s, acts, p) * Weight(p)
    decreases |acts|
  {
    hide Weight, Step, Valid, Next;
    if acts != [] {
      StepValid(s, acts[0]);
      var t := Step(s, acts[0]).state;
      ChargedIsServed(t, acts[1..], p);
      OneMore(Served(t, acts[1..], p), Weight(p));
    }
  }

  predicate InBand(points: seq<nat>, i: nat, j: nat)
    requires |points| == PRIO_MAX && i < PRIO_MAX && j < PRIO_MAX
  {
    points[i] <= points[j] + Weight(i) && points[j] <= points[i] + Weight(j)
  }

  /** The spread of two queued priorities never leaves the band between minus the
      weight of one and the weight of the other. */
  lemma {:induction false} SpreadKept(s: State, acts: seq<Act>, i: nat, j: nat)
    requires Valid(s) && ValidActs(acts) && i < PRIO_MAX && j < PRIO_MAX && i != j
    requires Multiples(s.points) && NoOverflow(s, acts)
    requires StaysQueued(s, acts, i) && StaysQueued(s, acts, j)
    requires InBand(s.points, i, j)
    ensures var t := Exec(s, acts).state;
      && |t.points| == PRIO_MAX
      && t.points[i] == s.points[i] + Charged(s, acts, i)
      && t.points[j] == s.points[j] + Charged(s, acts, j)
      && InBand(t.points, i, j)
    decreases |acts|
  {
    hide Weight, Multiples;
    if acts != [] {
      StepPoints(s, acts[0]);
      StepValid(s, acts[0]);
      NextIsNext(s);
      SpreadKept(Step(s, acts[0]).state, acts[1..], i, j);
    }
  }

  /** Two priorities that stay queued and start with equal points are served in
      inverse proportion to their weights, up to one serving. */
  lemma {:induction false} Fairness(s: State, acts: seq<Act>, i: nat, j: nat)
    requires Valid(s) && ValidActs(acts) && i < PRIO_MAX && j < PRIO_MAX && i != j
    requires Multiples(s.points) && NoOverflow(s, acts)
    requires StaysQueued(s, acts, i) && StaysQueued(s, acts, j)
    requires s.points[i] == s.points[j]
    ensures Served(s, acts, i) * Weight(i) <= Served(s, acts, j) * Weight(j) + Weight(i)
    ensures Served(s, acts, j) * Weight(j) <= Served(s, acts, i) * Weight(i) + Weight(j)
  {
    SpreadKept(s, acts, i, j);
    ChargedIsServed(s, acts, i);
    ChargedIsServed(s, acts, j);
  }

  // ----- a bound on waiting

  /** How often `i` can be chosen before `j`, whatever is submitted: the number of
      k with (points[i] + k * Weight(i), i) before (points[j], j). */
  function Ahead(points: seq<nat>, i: nat, j: nat): nat
    requires |points| == PRIO_MAX && i < PRIO_MAX && j < PRIO_MAX
  {
    if i == j then 0
    else
      var room: int := points[j] as int - points[i] - (if i < j then 0 else 1);
      if room < 0 then 0 else room / Weight(i) + 1
  }

  function AheadBelow(points: seq<nat>, j: nat, n: nat): nat
    requires |points| == PRIO_MAX && j < PRIO_MAX && n <= PRIO_MAX
  {
    if n == 0 then 0 else AheadBelow(points, j, n - 1) + Ahead(points, n - 1, j)
  }

  lemma ServingUsesOwnRoom(points: seq<nat>, i: nat, j: nat)
    requires |points| == PRIO_MAX && i < PRIO_MAX && j < PRIO_MAX && i != j
    requires Before(points, i, j)
    ensures Ahead(points, i, j) == Ahead(points[i := points[i] + Weight(i)], i, j) + 1
  {
    hide Weight;
    var room: int := points[j] as int - points[i] - (if i < j then 0 else 1);
    if room >= Weight(i) {
      AddOnce(room - Weight(i), Weight(i));
    } else {
      DivUnique(room, Weight(i), 0, room);
    }
  }

  lemma AheadLocal(points: seq<nat>, points': seq<nat>, i: nat, j: nat)
    requires |points| == |points'| == PRIO_MAX && i < PRIO_MAX && j < PRIO_MAX
    requires points[i] == points'[i] && points[j] == points'[j]
    ensures Ahead(points, i, j) == Ahead(points', i, j)
  {
    hide Weight;
  }

  lemma {:induction false} ServingUsesRoom(points: seq<nat>, i: nat, j: nat, n: nat)
    requires |points| == PRIO_MAX && i < PRIO_MAX && j < PRIO_MAX && i != j && n <= PRIO_MAX
    requires Before(points, i, j)
    ensures AheadBelow(points, j, n) ==
            AheadBelow(points[i := points[i] + Weight(i)], j, n) + (if i < n then 1 else 0)
  {
    hide Weight, Ahead;
    if n > 0 {
      ServingUsesRoom(points, i, j, n - 1);
      if n - 1 == i {
        ServingUsesOwnRoom(points, i, j);
      } else {
        AheadLocal(points, points[i := points[i] + Weight(i)], n - 1, j);
      }
    }
  }

  lemma {:induction false} WaitingBound(s: State, acts: seq<Act>, j: nat)
    requires Valid(s) && ValidActs(acts) && j < PRIO_MAX
    requires Multiples(s.points) && NoOverflow(s, acts)
    requires j in s.queued && Served(s, acts, j) == 0
    ensures ServeCount(acts) <= AheadBelow(s.points, j, PRIO_MAX)
    decreases |acts|
  {
    hide Weight, Multiples, Ahead, AheadBelow;
    if acts != [] {
      StepPoints(s, acts[0]);
      StepValid(s, acts[0]);
      var t := Step(s, acts[0]).state;
      if acts[0].Submit? {
        TakeValid(s, acts[0].subs, acts[0].reqs);
        EnqueueAllPoints(s, acts[0].subs);
      } else {
        NextIsNext(s);
        var n := Next(s).value;
        assert Before(s.points, n, j);
        ServingUsesRoom(s.points, n, j, PRIO_MAX);
      }
      WaitingBound(t, acts[1..], j);
    }
  }

  /** A queued priority is served within one more serving than the others have
      room for, whatever else is submitted meanwhile. */
  lemma {:induction false} NoStarvation(s: State, acts: seq<Act>, j: nat)
    requires Valid(s) && ValidActs(acts) && j < PRIO_MAX
    requires Multiples(s.points) && NoOverflow(s, acts)
    requires j in s.queued
    requires ServeCount(acts) >= 1 + AheadBelow(s.points, j, PRIO_MAX)
    ensures Served(s, acts, j) > 0
  {
    if Served(s, acts, j) == 0 {
      WaitingBound(s, acts, j);
    }
  }

  // ----- no overflow for 6918 servings after the points were cleared, and no more

  const SAFE_SERVINGS: nat := 6918

  lemma {:induction false} PointsBounded(s: State, acts: seq<Act>, bound: nat)
    requires Valid(s) && ValidActs(acts)
    requires forall p :: 0 <= p < PRIO_MAX ==> s.points[p] <= bound
    requires bound + ServeCount(acts) * MAX_WEIGHT < U32_SIZE
    ensures NoOverflow(s, acts)
    decreases |acts|
  {
    if acts != [] {
      StepValid(s, acts[0]);
      StepBounded(s, acts[0], bound);
      hide Step, Valid, Weight, Overflows;
      PointsBounded(Step(s, acts[0]).state, acts[1..], if acts[0].Submit? then bound else bound + MAX_WEIGHT);
    }
  }

  lemma StepBounded(s: State, a: Act, bound: nat)
    requires Valid(s) && a.Valid() && (a.Serve? ==> bound + MAX_WEIGHT < U32_SIZE)
    requires forall p :: 0 <= p < PRIO_MAX ==> s.points[p] <= bound
    ensures !Overflows(s, a) && |Step(s, a).state.points| == PRIO_MAX
    ensures forall p :: 0 <= p < PRIO_MAX ==>
      Step(s, a).state.points[p] <= if a.Submit? then bound else bound + MAX_WEIGHT
  {
    NextIsNext(s);
    NextReady(s);
    hide Weight;
    if a.Submit? {
      TakeValid(s, a.subs, a.reqs);
      EnqueueAllPoints(s, a.subs);
    }
  }

  lemma {:induction false} NoOverflowAfterReset(s: State, acts: seq<Act>)
    requires Valid(s) && ValidActs(acts) && s.points == Zeros()
    requires ServeCount(acts) <= SAFE_SERVINGS
    ensures NoOverflow(s, acts)
  {
    PointsBounded(s, acts, 0);
  }

  /** One long message of priority 63, cut `k` times. */
  ghost predicate OneLongMessage(s: State, k: nat, size: nat) {
    && Valid(s)
    && s.queued == {63}
    && s.points[63] == k * MAX_WEIGHT
    && |s.messages[63]| == 1
    && |s.messages[63][0].msg.buffer| == size
    && s.messages[63][0].msg.cursor == k * FRAME_DATA_SIZE
  }

  lemma {:induction false} LongMessageOverflows(s: State, k: nat, size: nat)
    requires k <= SAFE_SERVINGS && size > (SAFE_SERVINGS + 1) * FRAME_DATA_SIZE
    requires OneLongMessage(s, k, size)
    ensures !NoOverflow(s, Servings(SAFE_SERVINGS + 1 - k))
    decreases SAFE_SERVINGS - k
  {
    NextIsNext(s);
    var acts := Servings(SAFE_SERVINGS + 1 - k);
    assert IsNext(s.points, s.queued, Some(63));
    assert Next(s) == Some(63);
    if k < SAFE_SERVINGS {
      NextReady(s);
      StepValid(s, Serve);
      var t := Step(s, Serve).state;
      assert acts[1..] == Servings(SAFE_SERVINGS + 1 - (k + 1));
      LongMessageOverflows(t, k + 1, size);
    }
  }

  function LongMessage(buffer: seq<byte>): Submission {
    Submission(63, 0, OutgoingMessage(buffer, 0, 0, 0))
  }

  /** The bound is exact: a priority 63 message of more than 6919 frames overflows
      in serving 6919. */
  lemma OverflowIsReached(buffer: seq<byte>)
    requires |buffer| > (SAFE_SERVINGS + 1) * FRAME_DATA_SIZE
    ensures (InitialValid();
             !NoOverflow(Initial(), [Submit([LongMessage(buffer)], [])] + Servings(SAFE_SERVINGS + 1)))
  {
    InitialValid();
    var sub := LongMessage(buffer);
    var acts := [Submit([sub], [])] + Servings(SAFE_SERVINGS + 1);
    StepValid(Initial(), acts[0]);
    var s := Step(Initial(), acts[0]).state;
    assert [sub][..0] == [];
    assert EnqueueAll(Initial(), [sub]) == Enqueue(Initial(), sub);
    assert s == Enqueue(Initial(), sub);
    LongMessageOverflows(s, 0, |buffer|);
    assert acts[1..] == Servings(SAFE_SERVINGS + 1);
  }
}
