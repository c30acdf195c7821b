/** Exactly which runs of the scheduler overflow its points. */
module Overflowing {
  import opened Prios
  import opened Scheduling

  /** Every serving finds something, so the points are not cleared. */
  ghost predicate NoReset(s: State, acts: seq<Act>)
    requires Valid(s) && ValidActs(acts)
    decreases |acts|
  {
    acts == [] ||
    ((acts[0].Serve? ==> Next(s).Some?) &&
     (StepValid(s, acts[0]); NoReset(Step(s, acts[0]).state, acts[1..])))
  }

  /** The state before act `i`. */
  ghost function At(s: State, acts: seq<Act>, i: nat): (t: State)
    requires Valid(s) && ValidActs(acts) && i <= |acts|
    ensures Valid(t)
    decreases i
  {
    if i == 0 then s
    else
      StepValid(s, acts[0]);
      At(Step(s, acts[0]).state, acts[1..], i - 1)
  }

  /** In the acts from `i` to `j`, with no reset among them, `p` is charged 2^32 or more. */
  ghost predicate Overcharged(s: State, acts: seq<Act>, i: nat, j: nat, p: nat)
    requires Valid(s) && ValidActs(acts)
  {
    && i <= j <= |acts| && p < PRIO_MAX
    && NoReset(At(s, acts, i), acts[i..j])
    && Charged(At(s, acts, i), acts[i..j], p) >= U32_SIZE
  }

  /** Without reset and overflow points are what they were and what was charged. */
  lemma {:induction false} ChargesAddUp(s: State, acts: seq<Act>, p: nat)
    requires Valid(s) && ValidActs(acts) && p < PRIO_MAX && NoReset(s, acts) && NoOverflow(s, acts)
    ensures |Exec(s, acts).state.points| == |s.points| == PRIO_MAX
    ensures Exec(s, acts).state.points[p] == s.points[p] + Charged(s, acts, p)
    decreases |acts|
  {
    Shape(s);
    hide Weight, Valid;
    if acts != [] {
      StepValid(s, acts[0]);
      StepCharge(s, acts[0], p);
      hide Step;
      ChargesAddUp(Step(s, acts[0]).state, acts[1..], p);
    }
  }

  /** What one act does to the points of `p`. */
  lemma StepCharge(s: State, a: Act, p: nat)
    requires Valid(s) && a.Valid() && p < PRIO_MAX && !Overflows(s, a)
    ensures var t := Step(s, a).state;
      && |t.points| == |s.points| == PRIO_MAX
      && (a.Submit? ==> t.points == s.points)
      && (a.Serve? && Next(s).None? ==> t.points == Zeros())
      && (a.Serve? && Next(s).Some? ==>
            t.points[p] == s.points[p] + if IsServe(s, a, p) == 1 then Weight(p) else 0)
  {
    NextReady(s);
    hide Weight;
    if a.Submit? {
      TakeValid(s, a.subs, a.reqs);
      EnqueueAllPoints(s, a.subs);
    }
  }

  lemma Sliced(acts: seq<Act>, i: nat, j: nat)
    requires 0 < i <= j <= |acts|
    ensures acts[1..][i - 1..j - 1] == acts[i..j]
    ensures i == 1 ==> acts[1..][..j - 1] == acts[i..j]
  {
  }

  lemma {:induction false} PartOfSafeRun(s: State, acts: seq<Act>, i: nat, j: nat)
    requires Valid(s) && ValidActs(acts) && i <= j <= |acts| && NoOverflow(s, acts)
    ensures NoOverflow(At(s, acts, i), acts[i..j])
    decreases j
  {
    hide Valid, Step;
    if j > 0 {
      StepValid(s, acts[0]);
      if i > 0 {
        Sliced(acts, i, j);
        PartOfSafeRun(Step(s, acts[0]).state, acts[1..], i - 1, j - 1);
      } else {
        assert acts[i..j][1..] == acts[1..][..j - 1];
        PartOfSafeRun(Step(s, acts[0]).state, acts[1..], 0, j - 1);
      }
    }
  }

  lemma OverflowsNow(s: State, a: Act)
    requires Valid(s) && a.Valid() && Overflows(s, a)
    ensures ValidActs([a]) && NoReset(s, [a]) && Next(s).value < PRIO_MAX && |s.points| == PRIO_MAX
    ensures s.points[Next(s).value] + Charged(s, [a], Next(s).value) >= U32_SIZE
  {
    assert |[a][1..]| == 0;
    StepValid(s, a);
    hide Step, Weight;
  }

  lemma OverchargedLater(s: State, acts: seq<Act>, i: nat, j: nat, p: nat)
    requires Valid(s) && ValidActs(acts) && acts != []
    requires (StepValid(s, acts[0]); Overcharged(Step(s, acts[0]).state, acts[1..], i, j, p))
    ensures Overcharged(s, acts, i + 1, j + 1, p)
  {
    hide Weight, Valid, Next, Step;
    Sliced(acts, i + 1, j + 1);
  }

  lemma OverchargedAfterReset(s: State, acts: seq<Act>, j: nat, p: nat)
    requires Valid(s) && ValidActs(acts) && j < |acts| && p < PRIO_MAX
    requires (StepValid(s, acts[0]); var t := Step(s, acts[0]).state;
      NoReset(t, acts[1..][..j]) && Charged(t, acts[1..][..j], p) >= U32_SIZE)
    ensures Overcharged(s, acts, 1, j + 1, p)
  {
    hide Weight, Valid, Next, Step;
    Sliced(acts, 1, j + 1);
    StepValid(s, acts[0]);
    assert At(s, acts, 1) == At(Step(s, acts[0]).state, acts[1..], 0);
  }

  /** An overflowing run charges some priority 2^32 or more without a reset, or does so
      from its beginning on top of the points there are. */
  lemma {:induction false} FindOverflow(s: State, acts: seq<Act>) returns (first: bool, i: nat, j: nat, p: nat)
    requires Valid(s) && ValidActs(acts) && !NoOverflow(s, acts)
    ensures i <= j <= |acts| && p < PRIO_MAX && |s.points| == PRIO_MAX
    ensures if first then NoReset(s, acts[..j]) && s.points[p] + Charged(s, acts[..j], p) >= U32_SIZE
            else Overcharged(s, acts, i, j, p)
    decreases |acts|
  {
    Shape(s);
    hide Weight, Valid, Next, Step, NoReset, At, Charged, Overcharged, Overflows;
    var a := acts[0];
    StepValid(s, a);
    var t := Step(s, a).state;
    if Overflows(s, a) {
      OverflowsNow(s, a);
      assert acts[..1] == [a];
      return true, 0, 1, Next(s).value;
    }
    first, i, j, p := FindOverflow(t, acts[1..]);
    StepCharge(s, a, p);
    if !first {
      OverchargedLater(s, acts, i, j, p);
      return false, i + 1, j + 1, p;
    }
    if a.Serve? && Next(s).None? {
      OverchargedAfterReset(s, acts, j, p);
      return false, 1, j + 1, p;
    }
    OneActMore(s, acts, j, p);
    return true, 0, j + 1, p;
  }

  lemma OneActMore(s: State, acts: seq<Act>, j: nat, p: nat)
    requires Valid(s) && ValidActs(acts) && j < |acts| && p < PRIO_MAX
    requires !Overflows(s, acts[0]) && (acts[0].Serve? ==> Next(s).Some?)
    requires Valid(Step(s, acts[0]).state) && NoReset(Step(s, acts[0]).state, acts[1..][..j])
    ensures |s.points| == |Step(s, acts[0]).state.points| == PRIO_MAX && NoReset(s, acts[..j + 1])
    ensures s.points[p] + Charged(s, acts[..j + 1], p) ==
            Step(s, acts[0]).state.points[p] + Charged(Step(s, acts[0]).state, acts[1..][..j], p)
  {
    StepCharge(s, acts[0], p);
    hide Weight, Valid, Next, Step;
    assert acts[..j + 1][1..] == acts[1..][..j] && acts[..j + 1][0] == acts[0];
  }

  /** A run from cleared points overflows if and only if some priority is charged 2^32 or
      more between two resets. */
  lemma OverflowExact(s: State, acts: seq<Act>)
    requires Valid(s) && ValidActs(acts) && s.points == Zeros()
    ensures NoOverflow(s, acts) <==> forall i: nat, j: nat, p: nat :: !Overcharged(s, acts, i, j, p)
  {
    if NoOverflow(s, acts) {
      forall i: nat, j: nat, p: nat
        ensures !Overcharged(s, acts, i, j, p)
      {
        SafeCharges(s, acts, i, j, p);
      }
    } else {
      var first, i, j, p := FindOverflow(s, acts);
      hide NoOverflow, Valid, NoReset, Charged;
      if first {
        assert acts[0..j] == acts[..j];
        assert Overcharged(s, acts, 0, j, p);
      }
    }
  }

  lemma SafeCharges(s: State, acts: seq<Act>, i: nat, j: nat, p: nat)
    requires Valid(s) && ValidActs(acts) && NoOverflow(s, acts)
    ensures !Overcharged(s, acts, i, j, p)
  {
    hide NoOverflow, NoReset, Charged, At, Exec;
    if Overcharged(s, acts, i, j, p) {
      PartOfSafeRun(s, acts, i, j);
      ChargesAddUp(At(s, acts, i), acts[i..j], p);
      ExecValid(At(s, acts, i), acts[i..j]);
    }
  }
}
