/** What the frames of one stream are: every message cut at its place, one after the other. */
module Cutting {
  import opened Frames
  import opened Prios
  import opened Scheduling
  import opened Delivering

  // ----- the frames of one stream

  predicate IsOf(f: TaggedFrame, sid: nat) {
    f.0 == sid && (f.1.DataHeader? || f.1.Data?)
  }

  /** The messages of stream `sid`, frame by frame. */
  function Of(frames: seq<TaggedFrame>, sid: nat): seq<Frame> {
    if frames == [] then []
    else
      var n := |frames| - 1;
      Of(frames[..n], sid) + (if IsOf(frames[n], sid) then [frames[n].1] else [])
  }

  /** How many messages have begun. */
  function Begun(fs: seq<Frame>): nat {
    if fs == [] then 0
    else Begun(fs[..|fs| - 1]) + (if fs[|fs| - 1].DataHeader? then 1 else 0)
  }

  /** How many bytes of payload have been sent since the last header. */
  function Since(fs: seq<Frame>): nat {
    if fs == [] then 0
    else
      var f := fs[|fs| - 1];
      if f.DataHeader? then 0
      else Since(fs[..|fs| - 1]) + if f.Data? then |f.data| else 0
  }

  /** The messages sent up to now end with a whole one. */
  predicate AtEnd(fs: seq<Frame>, msgs: seq<OutgoingMessage>) {
    Begun(fs) <= |msgs| && (Begun(fs) > 0 ==> Since(fs) == |msgs[Begun(fs) - 1].buffer|)
  }

  /** `f` comes next after `before`: the header of the next message, once the last one is
      whole, or the next at most 1400 bytes of the current one, naming the place they have. */
  predicate Follows(before: seq<Frame>, f: Frame, msgs: seq<OutgoingMessage>, sid: nat) {
    match f
    case DataHeader(mid, s, length) =>
      && AtEnd(before, msgs) && Begun(before) < |msgs|
      && s == sid && mid == msgs[Begun(before)].mid && length == |msgs[Begun(before)].buffer|
    case Data(mid, start, data) =>
      && 0 < Begun(before) <= |msgs|
      && var m := msgs[Begun(before) - 1];
      && mid == m.mid && start == Since(before) && 0 < |data| <= 1400
      && start + |data| <= |m.buffer| && data == m.buffer[start..start + |data|]
      && (|data| == 1400 || start + |data| == |m.buffer|)
    case _ => false
  }

  ghost predicate Cut(fs: seq<Frame>, msgs: seq<OutgoingMessage>, sid: nat) {
    forall i :: 0 <= i < |fs| ==> Follows(fs[..i], fs[i], msgs, sid)
  }

  lemma {:induction false} OfConcat(a: seq<TaggedFrame>, b: seq<TaggedFrame>, sid: nat)
    ensures Of(a + b, sid) == Of(a, sid) + Of(b, sid)
    decreases |b|
  {
    if b == [] {
      assert a + b == a;
    } else {
      var n := |b| - 1;
      assert (a + b)[..|a + b| - 1] == a + b[..n];
      OfConcat(a, b[..n], sid);
    }
  }

  lemma OfOne(f: TaggedFrame, sid: nat)
    ensures Of([f], sid) == if IsOf(f, sid) then [f.1] else []
  {
    assert Of([], sid) == [];
  }

  lemma OneMoreFrame(fs: seq<Frame>, f: Frame)
    ensures Begun(fs + [f]) == Begun(fs) + if f.DataHeader? then 1 else 0
    ensures Since(fs + [f]) == if f.DataHeader? then 0 else Since(fs) + if f.Data? then |f.data| else 0
  {
    assert (fs + [f])[..|fs|] == fs;
  }

  lemma CutMore(fs: seq<Frame>, f: Frame, msgs: seq<OutgoingMessage>, sid: nat)
    requires Cut(fs, msgs, sid) && Follows(fs, f, msgs, sid)
    ensures Cut(fs + [f], msgs, sid)
  {
    hide Follows;
    forall i | 0 <= i < |fs + [f]|
      ensures Follows((fs + [f])[..i], (fs + [f])[i], msgs, sid)
    {
      if i < |fs| {
        assert (fs + [f])[..i] == fs[..i];
      } else {
        assert (fs + [f])[..i] == fs;
      }
    }
  }

  /** More messages to come change nothing. */
  lemma CutLonger(fs: seq<Frame>, msgs: seq<OutgoingMessage>, more: seq<OutgoingMessage>, sid: nat)
    requires Cut(fs, msgs, sid)
    ensures Cut(fs, msgs + more, sid)
  {
    forall i | 0 <= i < |fs|
      ensures Follows(fs[..i], fs[i], msgs + more, sid)
    {
      assert Follows(fs[..i], fs[i], msgs, sid);
    }
  }

  // ----- the messages of one stream

  /** The non-empty messages of stream `sid` in a queue, as they were submitted. */
  function Waiting(q: seq<Entry>, sid: nat): seq<OutgoingMessage> {
    if q == [] then []
    else Kept(q[0], sid) + Waiting(q[1..], sid)
  }

  /** The non-empty messages submitted on stream `sid`. */
  function SubmittedIn(subs: seq<Submission>, sid: nat): seq<OutgoingMessage> {
    if subs == [] then []
    else
      var sub := subs[|subs| - 1];
      SubmittedIn(subs[..|subs| - 1], sid) + (if sub.sid == sid && sub.msg.buffer != [] then [sub.msg] else [])
  }

  function SubmittedOn(acts: seq<Act>, sid: nat): seq<OutgoingMessage> {
    if acts == [] then []
    else (if acts[0].Submit? then SubmittedIn(acts[0].subs, sid) else []) + SubmittedOn(acts[1..], sid)
  }

  function Kept(e: Entry, sid: nat): seq<OutgoingMessage> {
    if e.sid == sid && e.msg.buffer != [] then [e.msg.(cursor := 0)] else []
  }

  lemma WaitingFirst(e: Entry, q: seq<Entry>, sid: nat)
    ensures Waiting([e] + q, sid) == Kept(e, sid) + Waiting(q, sid)
  {
    assert ([e] + q)[1..] == q;
  }

  lemma WaitingNone(sid: nat)
    ensures Waiting([], sid) == []
  {
  }

  lemma {:induction false} WaitingConcat(a: seq<Entry>, b: seq<Entry>, sid: nat)
    ensures Waiting(a + b, sid) == Waiting(a, sid) + Waiting(b, sid)
  {
    hide Waiting, Kept;
    if a == [] {
      WaitingNone(sid);
      assert a + b == b;
    } else {
      var e, rest := a[0], a[1..];
      WaitingConcat(rest, b, sid);
      WaitingFirst(e, rest, sid);
      WaitingFirst(e, rest + b, sid);
      assert a == [e] + rest && a + b == [e] + (rest + b);
      assert Kept(e, sid) + (Waiting(rest, sid) + Waiting(b, sid)) == Waiting(a, sid) + Waiting(b, sid);
    }
  }

  /** Entries of `sid` are in one queue. */
  ghost predicate Placed(qs: seq<seq<Entry>>, p: nat, sid: nat) {
    forall p', k :: 0 <= p' < |qs| && 0 <= k < |qs[p']| && qs[p'][k].sid == sid ==>
      p' == p && qs[p'][k].msg.sid == sid
  }

  /** The head of queue `p` is a message of `sid` that has been cut into. */
  predicate Partly(qs: seq<seq<Entry>>, p: nat, sid: nat)
    requires p < |qs|
  {
    qs[p] != [] && qs[p][0].sid == sid && qs[p][0].msg.cursor > 0
  }

  /** `fs`, the frames sent so far, are those of all `msgs` but the ones still waiting, and of
      the first of these as far as it has been cut. */
  ghost predicate Sending(s: State, fs: seq<Frame>, msgs: seq<OutgoingMessage>, p: nat, sid: nat) {
    && Valid(s) && p < PRIO_MAX && Placed(s.messages, p, sid)
    && Cut(fs, msgs, sid)
    && Progress(s.messages[p], fs, msgs, sid)
  }

  ghost predicate Progress(q: seq<Entry>, fs: seq<Frame>, msgs: seq<OutgoingMessage>, sid: nat) {
    var rest := Waiting(q, sid);
    if Partly([q], 0, sid) then
      && Begun(fs) > 0 && |msgs| == Begun(fs) - 1 + |rest| && rest == msgs[Begun(fs) - 1..]
      && Since(fs) == q[0].msg.cursor
    else
      AtEnd(fs, msgs) && |msgs| == Begun(fs) + |rest| && rest == msgs[Begun(fs)..]
  }

  // ----- submissions

  lemma EnqueueSending(s: State, fs: seq<Frame>, msgs: seq<OutgoingMessage>, sub: Submission, p: nat, sid: nat)
    requires Sending(s, fs, msgs, p, sid) && ValidSubmission(sub)
    requires sub.sid == sid ==> sub.prio == p && sub.msg.sid == sid
    ensures Sending(Enqueue(s, sub), fs, msgs + SubmittedIn([sub], sid), p, sid)
  {
    EnqueueValid(s, sub);
    Shape(s);
    SubmittedOne(sub, sid);
    EnqueuePlaced(s, sub, p, sid);
    CutLonger(fs, msgs, SubmittedIn([sub], sid), sid);
    hide Valid, Cut, Progress, Placed, Waiting, SubmittedIn;
    if sub.prio == p {
      ProgressMore(s.messages[p], Entry(sub.sid, sub.msg), fs, msgs, sid);
    } else {
      assert msgs + [] == msgs;
    }
  }

  lemma SubmittedOne(sub: Submission, sid: nat)
    requires sub.msg.cursor == 0
    ensures SubmittedIn([sub], sid) == Kept(Entry(sub.sid, sub.msg), sid)
  {
    assert SubmittedIn([], sid) == [];
  }

  lemma EnqueuePlaced(s: State, sub: Submission, p: nat, sid: nat)
    requires |s.messages| == PRIO_MAX && ValidSubmission(sub) && Placed(s.messages, p, sid)
    requires sub.sid == sid ==> sub.prio == p && sub.msg.sid == sid
    ensures Placed(Enqueue(s, sub).messages, p, sid)
  {
  }

  lemma ProgressMore(q: seq<Entry>, e: Entry, fs: seq<Frame>, msgs: seq<OutgoingMessage>, sid: nat)
    requires Progress(q, fs, msgs, sid) && e.msg.cursor == 0
    ensures Progress(q + [e], fs, msgs + Kept(e, sid), sid)
  {
    WaitingConcat(q, [e], sid);
    WaitingFirst(e, [], sid);
    assert [e] + [] == [e];
    assert Partly([q + [e]], 0, sid) == Partly([q], 0, sid);
    hide Waiting, Kept;
    var rest := Waiting(q, sid);
    var k := if Partly([q], 0, sid) then Begun(fs) - 1 else Begun(fs);
    assert (msgs + Kept(e, sid))[k..] == msgs[k..] + Kept(e, sid);
  }

  lemma {:induction false} EnqueueAllSending(s: State, fs: seq<Frame>, msgs: seq<OutgoingMessage>,
                                             subs: seq<Submission>, prioOf: nat -> nat, sid: nat)
    requires Sending(s, fs, msgs, prioOf(sid), sid) && ValidSubmissions(subs) && Routed(subs, prioOf)
    ensures Sending(EnqueueAll(s, subs), fs, msgs + SubmittedIn(subs, sid), prioOf(sid), sid)
  {
    SendingValid(s, fs, msgs, prioOf(sid), sid);
    hide Sending, Valid;
    if subs == [] {
      NoneAfter(msgs);
    } else {
      var n := |subs| - 1;
      EnqueueAllSending(s, fs, msgs, subs[..n], prioOf, sid);
      EnqueueSending(EnqueueAll(s, subs[..n]), fs, msgs + SubmittedIn(subs[..n], sid), subs[n], prioOf(sid), sid);
      SubmittedOne(subs[n], sid);
      Joined(msgs, SubmittedIn(subs[..n], sid), SubmittedIn([subs[n]], sid));
    }
  }

  lemma SendingValid(s: State, fs: seq<Frame>, msgs: seq<OutgoingMessage>, p: nat, sid: nat)
    requires Sending(s, fs, msgs, p, sid)
    ensures |s.messages| == PRIO_MAX && Valid(s)
  {
  }

  // ----- servings

  function Head(m: OutgoingMessage): Frame {
    DataHeader(m.mid, m.sid, |m.buffer|)
  }

  /** Message `m` is being sent, up to its cursor. */
  ghost predicate Within(fs: seq<Frame>, msgs: seq<OutgoingMessage>, m: OutgoingMessage) {
    0 < Begun(fs) <= |msgs| && msgs[Begun(fs) - 1] == m.(cursor := 0) && Since(fs) == m.cursor
  }

  lemma HeadNext(fs: seq<Frame>, msgs: seq<OutgoingMessage>, m: OutgoingMessage, sid: nat)
    requires Cut(fs, msgs, sid) && AtEnd(fs, msgs) && Begun(fs) < |msgs| && msgs[Begun(fs)] == m
    requires m.cursor == 0 && m.sid == sid
    ensures Cut(fs + [Head(m)], msgs, sid) && Within(fs + [Head(m)], msgs, m)
    ensures Begun(fs + [Head(m)]) == Begun(fs) + 1
  {
    OneMoreFrame(fs, Head(m));
    CutMore(fs, Head(m), msgs, sid);
  }

  lemma ChunkNext(fs: seq<Frame>, msgs: seq<OutgoingMessage>, m: OutgoingMessage, sid: nat)
    requires m.Valid() && m.ToSend() > 0 && Cut(fs, msgs, sid) && Within(fs, msgs, m)
    ensures Cut(fs + [DataFrame(m)], msgs, sid) && Within(fs + [DataFrame(m)], msgs, m.Advanced())
    ensures Begun(fs + [DataFrame(m)]) == Begun(fs)
  {
    OneMoreFrame(fs, DataFrame(m));
    CutMore(fs, DataFrame(m), msgs, sid);
  }

  /** The frames of one serving are about the stream it is for. */
  lemma NextOf(m: OutgoingMessage, tag: nat, sid: nat)
    requires m.Valid()
    ensures tag != sid ==> Of(m.NextFrames(tag), sid) == []
    ensures tag == sid && m.ToSend() == 0 ==> Of(m.NextFrames(tag), sid) == []
    ensures tag == sid && m.ToSend() > 0 ==>
      Of(m.NextFrames(tag), sid) == (if m.cursor == 0 then [Head(m)] else []) + [DataFrame(m)]
  {
    if m.ToSend() > 0 {
      OfOne((tag, Head(m)), sid);
      OfOne((tag, DataFrame(m)), sid);
      OfConcat([(tag, Head(m))], [(tag, DataFrame(m))], sid);
    }
  }

  /** The head of the queue, once its header is sent. */
  lemma Underway(q: seq<Entry>, fs: seq<Frame>, msgs: seq<OutgoingMessage>, sid: nat)
    requires q != [] && q[0].sid == sid && q[0].msg.sid == sid && q[0].msg.Valid()
    requires Progress(q, fs, msgs, sid) && Cut(fs, msgs, sid)
    requires Waiting(q, sid) == [q[0].msg.(cursor := 0)] + Waiting(q[1..], sid)
    ensures var fs0 := if q[0].msg.cursor == 0 then fs + [Head(q[0].msg)] else fs;
      && Cut(fs0, msgs, sid) && Within(fs0, msgs, q[0].msg)
      && msgs[Begun(fs0)..] == Waiting(q[1..], sid) && |msgs| == Begun(fs0) + |Waiting(q[1..], sid)|
  {
    var m := q[0].msg;
    var k := if m.cursor == 0 then Begun(fs) else Begun(fs) - 1;
    hide Waiting, Cut, Head, Begun, Since;
    FirstAndRest(msgs, k, m.(cursor := 0), Waiting(q[1..], sid));
    if m.cursor == 0 {
      HeadNext(fs, msgs, m, sid);
    }
  }

  lemma FirstAndRest<T>(a: seq<T>, k: nat, x: T, rest: seq<T>)
    requires k <= |a| && a[k..] == [x] + rest
    ensures k < |a| && a[k] == x && a[k + 1..] == rest
  {
    assert a[k] == a[k..][0] && a[k + 1..] == a[k..][1..];
  }

  /** One serving of a message of the stream. */
  lemma ProgressChunk(q: seq<Entry>, fs: seq<Frame>, msgs: seq<OutgoingMessage>, sid: nat)
    requires q != [] && q[0].sid == sid && q[0].msg.sid == sid && q[0].msg.Valid() && q[0].msg.ToSend() > 0
    requires Progress(q, fs, msgs, sid) && Cut(fs, msgs, sid)
    requires Waiting(q, sid) == [q[0].msg.(cursor := 0)] + Waiting(q[1..], sid)
    ensures var m := q[0].msg; var fs' := fs + ((if m.cursor == 0 then [Head(m)] else []) + [DataFrame(m)]);
      && Cut(fs', msgs, sid) && Within(fs', msgs, m.Advanced())
      && msgs[Begun(fs')..] == Waiting(q[1..], sid) && |msgs| == Begun(fs') + |Waiting(q[1..], sid)|
  {
    var m := q[0].msg;
    var fs0 := if m.cursor == 0 then fs + [Head(m)] else fs;
    Underway(q, fs, msgs, sid);
    hide Waiting, Cut, Head, DataFrame, Begun, Since, Progress, Within;
    ChunkNext(fs0, msgs, m, sid);
    Joined(fs, if m.cursor == 0 then [Head(m)] else [], [DataFrame(m)]);
    NoneAfter(fs);
  }

  /** One serving of the queue the stream is in. */
  lemma ProgressServe(q: seq<Entry>, q': seq<Entry>, fs: seq<Frame>, msgs: seq<OutgoingMessage>, sid: nat)
    requires ValidQueue(q) && q != [] && (q[0].sid == sid ==> q[0].msg.sid == sid)
    requires q' == if q[0].msg.Advanced().Finished() then q[1..] else [Entry(q[0].sid, q[0].msg.Advanced())] + q[1..]
    requires Progress(q, fs, msgs, sid) && Cut(fs, msgs, sid)
    ensures var fs' := fs + Of(q[0].msg.NextFrames(q[0].sid), sid); Progress(q', fs', msgs, sid) && Cut(fs', msgs, sid)
  {
    var m := q[0].msg;
    assert m.Valid();
    NextOf(m, q[0].sid, sid);
    hide Progress, Cut, Waiting, Within, Of, Begun, Since, ValidQueue, DataFrame, Head;
    if q[0].sid == sid && m.ToSend() > 0 {
      WaitingMessage(q, sid);
      ProgressChunk(q, fs, msgs, sid);
      ProgressAfter(q, q', fs + ((if m.cursor == 0 then [Head(m)] else []) + [DataFrame(m)]), msgs, sid);
    } else {
      ProgressBeside(q, q', fs, msgs, sid);
      NoneAfter(fs);
    }
  }

  lemma WaitingMessage(q: seq<Entry>, sid: nat)
    requires q != [] && q[0].sid == sid && q[0].msg.Valid() && q[0].msg.ToSend() > 0
    ensures Waiting(q, sid) == [q[0].msg.(cursor := 0)] + Waiting(q[1..], sid)
  {
  }

  lemma NoneAfter<T>(a: seq<T>)
    ensures a + [] == a
  {
  }

  lemma Joined<T>(a: seq<T>, b: seq<T>, c: seq<T>)
    ensures a + b + c == a + (b + c)
  {
  }

  lemma ProgressAfter(q: seq<Entry>, q': seq<Entry>, fs: seq<Frame>, msgs: seq<OutgoingMessage>, sid: nat)
    requires ValidQueue(q) && q != [] && q[0].sid == sid && q[0].msg.ToSend() > 0
    requires q' == if q[0].msg.Advanced().Finished() then q[1..] else [Entry(q[0].sid, q[0].msg.Advanced())] + q[1..]
    requires Within(fs, msgs, q[0].msg.Advanced())
    requires msgs[Begun(fs)..] == Waiting(q[1..], sid) && |msgs| == Begun(fs) + |Waiting(q[1..], sid)|
    ensures Progress(q', fs, msgs, sid)
  {
    var m := q[0].msg.Advanced();
    hide Waiting, Begun, Since, Progress, Within;
    if m.Finished() {
      NextIsWhole(q);
      ProgressLast(q[1..], m, fs, msgs, sid);
    } else {
      ProgressOn(q[1..], m, fs, msgs, sid);
    }
  }

  lemma NextIsWhole(q: seq<Entry>)
    requires ValidQueue(q) && q != []
    ensures q[1..] != [] ==> q[1..][0].msg.cursor == 0
  {
    assert q[1..] != [] ==> q[1..][0] == q[1];
  }

  /** The last chunk of `m` has been sent. */
  lemma ProgressLast(q: seq<Entry>, m: OutgoingMessage, fs: seq<Frame>, msgs: seq<OutgoingMessage>, sid: nat)
    requires q != [] ==> q[0].msg.cursor == 0
    requires m.cursor == |m.buffer| && Within(fs, msgs, m)
    requires msgs[Begun(fs)..] == Waiting(q, sid) && |msgs| == Begun(fs) + |Waiting(q, sid)|
    ensures Progress(q, fs, msgs, sid)
  {
    hide Waiting, Begun, Since;
  }

  /** Another chunk of it. */
  lemma ProgressOn(q: seq<Entry>, m: OutgoingMessage, fs: seq<Frame>, msgs: seq<OutgoingMessage>, sid: nat)
    requires m.buffer != [] && m.cursor > 0 && Within(fs, msgs, m)
    requires msgs[Begun(fs)..] == Waiting(q, sid) && |msgs| == Begun(fs) + |Waiting(q, sid)|
    ensures Progress([Entry(sid, m)] + q, fs, msgs, sid)
  {
    hide Waiting, Begun, Since;
    WaitingFirst(Entry(sid, m), q, sid);
    OneBack(msgs, Begun(fs), m.(cursor := 0));
  }

  lemma OneBack<T>(a: seq<T>, k: nat, x: T)
    requires 0 < k <= |a| && a[k - 1] == x
    ensures a[k - 1..] == [x] + a[k..]
  {
  }

  lemma ProgressBeside(q: seq<Entry>, q': seq<Entry>, fs: seq<Frame>, msgs: seq<OutgoingMessage>, sid: nat)
    requires ValidQueue(q) && q != [] && (q[0].sid != sid || q[0].msg.ToSend() == 0)
    requires q' == if q[0].msg.Advanced().Finished() then q[1..] else [Entry(q[0].sid, q[0].msg.Advanced())] + q[1..]
    requires Progress(q, fs, msgs, sid)
    ensures Progress(q', fs, msgs, sid)
  {
    assert q == [q[0]] + q[1..];
    WaitingFirst(q[0], q[1..], sid);
    WaitingFirst(Entry(q[0].sid, q[0].msg.Advanced()), q[1..], sid);
    assert q[1..] != [] ==> q[1..][0] == q[1];
    hide Waiting, Begun, Since;
    assert Kept(q[0], sid) == [];
    assert Waiting(q', sid) == Waiting(q, sid);
  }

  lemma ServeSending(s: State, fs: seq<Frame>, msgs: seq<OutgoingMessage>, n: nat, p: nat, sid: nat)
    requires Sending(s, fs, msgs, p, sid) && n in s.queued && Servable(s, n)
    ensures Sending(ServePrio(s, n).state, fs + Of(ServePrio(s, n).frames, sid), msgs, p, sid)
  {
    ServePrioValid(s, n);
    ServePlaced(s, n, p, sid);
    var q, q' := s.messages[n], ServePrio(s, n).state.messages[n];
    assert ValidQueue(q);
    hide Valid, Progress, Cut, Placed;
    if n == p {
      ServedQueue(s, n, p, sid);
      ProgressServe(q, q', fs, msgs, sid);
    } else {
      ServedBeside(s, n, p, sid);
      assert fs + [] == fs;
    }
  }

  lemma ServedQueue(s: State, n: nat, p: nat, sid: nat)
    requires Servable(s, n) && Placed(s.messages, p, sid)
    ensures s.messages[n][0].sid == sid ==> n == p && s.messages[n][0].msg.sid == sid
    ensures ServePrio(s, n).frames == s.messages[n][0].msg.NextFrames(s.messages[n][0].sid)
    ensures forall q :: 0 <= q < PRIO_MAX && q != n ==> ServePrio(s, n).state.messages[q] == s.messages[q]
  {
    hide Weight;
  }

  lemma ServedBeside(s: State, n: nat, p: nat, sid: nat)
    requires Servable(s, n) && n != p && p < PRIO_MAX && Placed(s.messages, p, sid)
    ensures Of(ServePrio(s, n).frames, sid) == []
    ensures ServePrio(s, n).state.messages[p] == s.messages[p]
  {
    hide Of, ServePrio, Placed;
    ServedQueue(s, n, p, sid);
    NextOf(s.messages[n][0].msg, s.messages[n][0].sid, sid);
  }

  lemma ServePlaced(s: State, n: nat, p: nat, sid: nat)
    requires Servable(s, n) && Placed(s.messages, p, sid)
    ensures Placed(ServePrio(s, n).state.messages, p, sid)
  {
    var q, q' := s.messages[n], ServePrio(s, n).state.messages[n];
    assert forall k :: 0 <= k < |q'| ==>
      q'[k].sid == q[k + |q| - |q'|].sid && q'[k].msg.sid == q[k + |q| - |q'|].msg.sid;
  }

  // ----- whole runs

  lemma StepSending(s: State, fs: seq<Frame>, msgs: seq<OutgoingMessage>, a: Act, prioOf: nat -> nat, sid: nat)
    requires Sending(s, fs, msgs, prioOf(sid), sid) && a.Valid() && (a.Submit? ==> Routed(a.subs, prioOf))
    ensures Valid(s)
    ensures Sending(Step(s, a).state, fs + Of(Step(s, a).frames, sid),
                    msgs + (if a.Submit? then SubmittedIn(a.subs, sid) else []), prioOf(sid), sid)
  {
    StepValid(s, a);
    if a.Submit? {
      TakeValid(s, a.subs, a.reqs);
      EnqueueAllSending(s, fs, msgs, a.subs, prioOf, sid);
      assert fs + [] == fs;
    } else {
      NextReady(s);
      NextIsNext(s);
      assert msgs + [] == msgs && fs + [] == fs;
      if Next(s).Some? {
        ServeSending(s, fs, msgs, Next(s).value, prioOf(sid), sid);
      }
    }
    hide Progress, Cut, Placed, EnqueueAll, ServePrio, SubmittedIn;
  }

  lemma {:induction false} ExecSending(s: State, fs: seq<Frame>, msgs: seq<OutgoingMessage>, acts: seq<Act>,
                                       prioOf: nat -> nat, sid: nat)
    requires Sending(s, fs, msgs, prioOf(sid), sid) && ValidActs(acts) && AllRouted(acts, prioOf)
    ensures Valid(s)
    ensures Sending(Exec(s, acts).state, fs + Of(Exec(s, acts).frames, sid),
            msgs + SubmittedOn(acts, sid), prioOf(sid), sid)
    decreases |acts|
  {
    SendingValid(s, fs, msgs, prioOf(sid), sid);
    hide Sending, Step, Valid;
    if acts == [] {
      NoneAfter(fs);
      NoneAfter(msgs);
    } else {
      StepSending(s, fs, msgs, acts[0], prioOf, sid);
      StepValid(s, acts[0]);
      var o := Step(s, acts[0]);
      var more := if acts[0].Submit? then SubmittedIn(acts[0].subs, sid) else [];
      ExecSending(o.state, fs + Of(o.frames, sid), msgs + more, acts[1..], prioOf, sid);
      OfConcat(o.frames, Exec(o.state, acts[1..]).frames, sid);
      Joined(fs, Of(o.frames, sid), Of(Exec(o.state, acts[1..]).frames, sid));
      Joined(msgs, more, SubmittedOn(acts[1..], sid));
    }
  }

  /** In every run the frames of a stream are its non-empty messages one after the other, each cut
      at its place into chunks of 1400 bytes and a last one, and all of them once the queues
      are empty. */
  lemma MessagesAreCut(acts: seq<Act>, prioOf: nat -> nat, sid: nat)
    requires (InitialValid(); ValidActs(acts) && AllRouted(acts, prioOf)) && prioOf(sid) < PRIO_MAX
    ensures (InitialValid(); var fs := Of(Exec(Initial(), acts).frames, sid); var msgs := SubmittedOn(acts, sid);
      && Cut(fs, msgs, sid)
      && (Exec(Initial(), acts).state.queued == {} ==> Begun(fs) == |msgs| && AtEnd(fs, msgs)))
  {
    InitialValid();
    ExecSending(Initial(), [], [], acts, prioOf, sid);
    var fs := Of(Exec(Initial(), acts).frames, sid);
    assert [] + fs == fs && [] + SubmittedOn(acts, sid) == SubmittedOn(acts, sid);
    hide Exec, Cut, Begun, Since, Of, SubmittedOn;
  }

  // ----- a receiver that puts every chunk at its place

  function Blank(n: nat): seq<byte> {
    seq(n, _ => 0)
  }

  function Put(buffer: seq<byte>, start: nat, data: seq<byte>): seq<byte> {
    if start + |data| <= |buffer| then buffer[..start] + data + buffer[start + |data|..] else buffer
  }

  /** A blank buffer for every header, and every chunk written at its start. */
  function Rebuilt(fs: seq<Frame>): seq<seq<byte>> {
    if fs == [] then []
    else
      var n := |fs| - 1;
      var bs := Rebuilt(fs[..n]);
      match fs[n]
      case DataHeader(_, _, length) => bs + [Blank(length)]
      case Data(_, start, data) => if bs == [] then bs else bs[|bs| - 1 := Put(bs[|bs| - 1], start, data)]
      case _ => bs
  }

  lemma PutNext(buffer: seq<byte>, whole: seq<byte>, start: nat, n: nat)
    requires |buffer| == |whole| && start + n <= |whole| && buffer[..start] == whole[..start]
    ensures var b := Put(buffer, start, whole[start..start + n]);
      |b| == |whole| && b[..start + n] == whole[..start + n]
  {
    var b := Put(buffer, start, whole[start..start + n]);
    assert whole[..start + n] == whole[..start] + whole[start..start + n];
    assert b[..start + n] == buffer[..start] + whole[start..start + n];
  }

  /** All messages begun are held, the last one up to `since`. */
  ghost predicate Held(bs: seq<seq<byte>>, since: nat, msgs: seq<OutgoingMessage>) {
    && |bs| <= |msgs|
    && (forall i :: 0 <= i < |bs| - 1 ==> bs[i] == msgs[i].buffer)
    && (bs != [] ==>
          var b, whole := bs[|bs| - 1], msgs[|bs| - 1].buffer;
          |b| == |whole| && since <= |whole| && b[..since] == whole[..since])
  }

  lemma HeldHeader(bs: seq<seq<byte>>, since: nat, msgs: seq<OutgoingMessage>)
    requires Held(bs, since, msgs) && |bs| < |msgs| && (bs != [] ==> since == |msgs[|bs| - 1].buffer|)
    ensures Held(bs + [Blank(|msgs[|bs|].buffer|)], 0, msgs)
  {
    HeldWhole(bs, since, msgs);
  }

  lemma HeldChunk(bs: seq<seq<byte>>, since: nat, n: nat, msgs: seq<OutgoingMessage>)
    requires Held(bs, since, msgs) && bs != [] && since + n <= |msgs[|bs| - 1].buffer|
    ensures var k := |bs| - 1;
      Held(bs[k := Put(bs[k], since, msgs[k].buffer[since..since + n])], since + n, msgs)
  {
    PutNext(bs[|bs| - 1], msgs[|bs| - 1].buffer, since, n);
  }

  lemma RebuiltNone(msgs: seq<OutgoingMessage>)
    ensures Rebuilt([]) == [] && Begun([]) == 0 && Held([], 0, msgs) && Since([]) == 0
  {
  }

  lemma RebuiltOne(fs: seq<Frame>, f: Frame)
    ensures f.DataHeader? ==> Rebuilt(fs + [f]) == Rebuilt(fs) + [Blank(f.length)]
    ensures f.Data? && Rebuilt(fs) != [] ==>
      Rebuilt(fs + [f]) == Rebuilt(fs)[|Rebuilt(fs)| - 1 := Put(Rebuilt(fs)[|Rebuilt(fs)| - 1], f.start, f.data)]
  {
    assert (fs + [f])[..|fs|] == fs;
  }

  lemma {:induction false} RebuiltSoFar(fs: seq<Frame>, msgs: seq<OutgoingMessage>, sid: nat)
    requires Cut(fs, msgs, sid)
    ensures |Rebuilt(fs)| == Begun(fs) && Held(Rebuilt(fs), Since(fs), msgs)
  {
    hide Cut, Held, Put, Blank, Rebuilt, Begun, Since;
    if fs == [] {
      RebuiltNone(msgs);
    } else {
      var before, f := fs[..|fs| - 1], fs[|fs| - 1];
      var bs := Rebuilt(before);
      assert fs == before + [f];
      CutBefore(fs, msgs, sid);
      RebuiltSoFar(before, msgs, sid);
      OneMoreFrame(before, f);
      RebuiltOne(before, f);
      if f.Data? {
        HeldChunk(bs, Since(before), |f.data|, msgs);
      } else {
        HeldHeader(bs, Since(before), msgs);
      }
    }
  }

  lemma CutBefore(fs: seq<Frame>, msgs: seq<OutgoingMessage>, sid: nat)
    requires Cut(fs, msgs, sid) && fs != []
    ensures Cut(fs[..|fs| - 1], msgs, sid) && Follows(fs[..|fs| - 1], fs[|fs| - 1], msgs, sid)
  {
    hide Follows;
    forall i | 0 <= i < |fs| - 1
      ensures Follows(fs[..|fs| - 1][..i], fs[i], msgs, sid)
    {
      assert fs[..|fs| - 1][..i] == fs[..i];
      assert Follows(fs[..i], fs[i], msgs, sid);
    }
  }

  lemma HeldWhole(bs: seq<seq<byte>>, since: nat, msgs: seq<OutgoingMessage>)
    requires Held(bs, since, msgs)
    ensures |bs| <= |msgs| && forall i :: 0 <= i < |bs| - 1 ==> bs[i] == msgs[i].buffer
    ensures bs != [] && since == |msgs[|bs| - 1].buffer| ==> bs[|bs| - 1] == msgs[|bs| - 1].buffer
  {
    if bs != [] {
      var b, whole := bs[|bs| - 1], msgs[|bs| - 1].buffer;
      assert whole[..|whole|] == whole && b[..|b|] == b;
    }
  }

  /** So a receiver that only looks at lengths and starts has, of what it is sent of a stream, all
      messages but at most the last one, byte for byte and in order. */
  lemma PlacesRebuild(fs: seq<Frame>, msgs: seq<OutgoingMessage>, sid: nat)
    requires Cut(fs, msgs, sid)
    ensures |Rebuilt(fs)| == Begun(fs) <= |msgs|
    ensures forall i :: 0 <= i < Begun(fs) && (i < Begun(fs) - 1 || AtEnd(fs, msgs)) ==>
      Rebuilt(fs)[i] == msgs[i].buffer
  {
    hide Rebuilt, Begun, Since, Cut, Held;
    RebuiltSoFar(fs, msgs, sid);
    HeldWhole(Rebuilt(fs), Since(fs), msgs);
  }
}
