/** From the messages submitted at one participant to the messages handed over at the
    other, by way of the bytes of a TCP connection that may break off anywhere. */
module EndToEnd {
  import opened Frames
  import opened Prios
  import opened Scheduling
  import opened Receiving
  import opened Delivering
  import opened Wire
  import opened Bytes

  function Untag(fs: seq<TaggedFrame>): (r: seq<Frame>)
    ensures |r| == |fs| && forall i :: 0 <= i < |fs| ==> r[i] == fs[i].1
  {
    seq(|fs|, i requires 0 <= i < |fs| => fs[i].1)
  }

  /** The frames as the receiving side gets them from channel `cid`. */
  function From(cid: nat, fs: seq<Frame>): (r: seq<TaggedFrame>)
    ensures |r| == |fs| && forall i :: 0 <= i < |fs| ==> r[i] == (cid, fs[i])
  {
    seq(|fs|, i requires 0 <= i < |fs| => (cid, fs[i]))
  }

  /** All frames that are complete in `s`. */
  function DecodeWhole(s: seq<byte>): seq<Frame>
    decreases |s|
  {
    match Decode(s)
    case Decoded(f, rest) => [f] + DecodeWhole(rest)
    case Incomplete => []
    case UnknownTag(_) => []
  }

  ghost predicate Sendable(fs: seq<Frame>) {
    forall i :: 0 <= i < |fs| ==> Typed(fs[i]) && Transmissible(fs[i])
  }

  /** Wherever the bytes break off, a prefix of the frames has come through. */
  lemma {:induction false} BrokenOff(fs: seq<Frame>, n: nat) returns (k: nat)
    requires Sendable(fs) && n <= |EncodeAll(fs)|
    ensures k <= |fs| && DecodeWhole(EncodeAll(fs)[..n]) == fs[..k]
    ensures n == |EncodeAll(fs)| ==> k == |fs|
  {
    hide Encode, Decode, Typed, Transmissible;
    if fs == [] {
      NothingDecoded();
      assert EncodeAll(fs)[..n] == [];
      return 0;
    }
    var first, rest := Encode(fs[0]), EncodeAll(fs[1..]);
    if n < |first| {
      CutShort(fs[0], n);
      assert (first + rest)[..n] == first[..n];
      return 0;
    }
    assert (first + rest)[..n] == first + rest[..n - |first|];
    RoundTrip(fs[0], rest[..n - |first|]);
    k := BrokenOff(fs[1..], n - |first|);
    k := k + 1;
    assert fs[..k] == [fs[0]] + fs[1..][..k - 1];
  }

  lemma NothingDecoded()
    ensures DecodeWhole([]) == []
  {
  }

  // ----- every frame of a run can be sent

  /** Message and stream ids and lengths are 64-bit numbers in the program. */
  predicate Sized(sub: Submission) {
    sub.msg.mid < Pow256(8) && sub.msg.sid < Pow256(8) && |sub.msg.buffer| < Pow256(8)
  }

  predicate AllSized(acts: seq<Act>) {
    forall i :: 0 <= i < |acts| && acts[i].Submit? ==> forall j :: 0 <= j < |acts[i].subs| ==> Sized(acts[i].subs[j])
  }

  ghost predicate SizedQueues(qs: seq<seq<Entry>>) {
    forall p, k :: 0 <= p < |qs| && 0 <= k < |qs[p]| ==>
      var m := qs[p][k].msg; m.mid < Pow256(8) && m.sid < Pow256(8) && |m.buffer| < Pow256(8)
  }

  lemma {:induction false} EnqueueAllSized(s: State, subs: seq<Submission>)
    requires |s.messages| == PRIO_MAX && ValidSubmissions(subs) && SizedQueues(s.messages)
    requires forall j :: 0 <= j < |subs| ==> Sized(subs[j])
    ensures SizedQueues(EnqueueAll(s, subs).messages)
  {
    hide Pow256;
    if subs != [] {
      EnqueueAllSized(s, subs[..|subs| - 1]);
    }
  }

  lemma ServeSized(s: State, p: nat)
    requires Servable(s, p) && SizedQueues(s.messages)
    ensures SizedQueues(ServePrio(s, p).state.messages) && Sendable(Untag(ServePrio(s, p).frames))
  {
    var head := s.messages[p][0];
    NextFramesFit(head.msg, head.sid);
    hide Pow256, Typed, Transmissible, Weight;
  }

  lemma StepSized(s: State, a: Act)
    requires Valid(s) && a.Valid() && SizedQueues(s.messages)
    requires a.Submit? ==> forall j :: 0 <= j < |a.subs| ==> Sized(a.subs[j])
    ensures SizedQueues(Step(s, a).state.messages) && Sendable(Untag(Step(s, a).frames))
  {
    hide SizedQueues, Sendable;
    match a
    case Submit(subs, reqs) =>
      EnqueueAllSized(s, subs);
      TakeValid(s, subs, reqs);
      NoneSendable();
    case Serve =>
      NextReady(s);
      NoneSendable();
      if Next(s).Some? {
        ServeSized(s, Next(s).value);
      }
  }

  lemma NoneSendable()
    ensures Sendable(Untag([]))
  {
  }

  lemma {:induction false} ExecSized(s: State, acts: seq<Act>)
    requires Valid(s) && ValidActs(acts) && SizedQueues(s.messages) && AllSized(acts)
    ensures Sendable(Untag(Exec(s, acts).frames))
    decreases |acts|
  {
    hide SizedQueues, Valid, Step, Sized;
    if acts == [] {
      NoneSendable();
    } else {
      StepSized(s, acts[0]);
      StepValid(s, acts[0]);
      var o := Step(s, acts[0]);
      assert AllSized(acts[1..]);
      ExecSized(o.state, acts[1..]);
      SendableConcat(o.frames, Exec(o.state, acts[1..]).frames);
    }
  }

  lemma SendableConcat(a: seq<TaggedFrame>, b: seq<TaggedFrame>)
    requires Sendable(Untag(a)) && Sendable(Untag(b))
    ensures Sendable(Untag(a + b))
  {
    assert Untag(a + b) == Untag(a) + Untag(b);
  }

  /** The receiver does not look at where a frame came from. */
  lemma {:induction false} TagsIgnored(r: Receiver, a: seq<TaggedFrame>, b: seq<TaggedFrame>)
    requires |a| == |b| && (forall i :: 0 <= i < |a| ==> a[i].1 == b[i].1) && AllForParticipant(a)
    ensures AllForParticipant(b) && HandleAll(r, a) == HandleAll(r, b)
  {
    hide ForParticipant, Handle;
    if a != [] {
      TagsIgnored(r, a[..|a| - 1], b[..|b| - 1]);
    }
  }

  /** Submit, schedule, cut into frames, encode, break off after `n` bytes, decode and
      reassemble: the messages of an open stream arrive byte for byte and in order, and
      all of them once the queues are empty and no byte is missing. */
  lemma {:induction false} DeliveredOverTcp(acts: seq<Act>, open: set<nat>, prioOf: nat -> nat, cid: nat,
          n: nat, sid: nat)
    requires (InitialValid(); ValidActs(acts) && AllRouted(acts, prioOf) && CollisionFree(Initial(), acts))
    requires AllSized(acts) && sid in open && prioOf(sid) < PRIO_MAX
    requires n <= |WireBytes(acts)|
    ensures
      var came := From(cid, DecodeWhole(WireBytes(acts)[..n]));
      && AllForParticipant(came)
      && Received(HandleAll(Fresh(open), came).log, sid) <= Received(Accepted(acts), sid)
      && (n == |WireBytes(acts)| && Exec(Initial(), acts).state.queued == {} ==>
            Received(HandleAll(Fresh(open), came).log, sid) == Received(Accepted(acts), sid))
  {
    InitialValid();
    var fs := Exec(Initial(), acts).frames;
    InitialSized();
    ExecSized(Initial(), acts);
    var k := BrokenOff(Untag(fs), n);
    Delivered(acts, open, prioOf, k, sid);
    hide Valid, Exec, HandleAll, CollisionFree, AllSized, DecodeWhole;
    TagsIgnored(Fresh(open), fs[..k], From(cid, Untag(fs)[..k]));
  }

  lemma InitialSized()
    ensures SizedQueues(Initial().messages)
  {
  }

  /** What a run puts on the wire. */
  function WireBytes(acts: seq<Act>): seq<byte>
    requires (InitialValid(); ValidActs(acts)) && AllSized(acts)
  {
    InitialValid();
    InitialSized();
    ExecSized(Initial(), acts);
    EncodeAll(Untag(Exec(Initial(), acts).frames))
  }
}
