/** `PrioManager` as the object it is: its methods change the points, the queues
    and the stream counters in place, and do what `Prios` specifies. */
module PrioManagers {
  import opened Wrappers
  import opened Frames
  import opened Prios

  class PrioManager {
    const points: array<nat>
    const messages: array<seq<Entry>>
    var queued: set<nat>
    var owned: map<nat, SidInfo>
    /** The two channels the API and the close manager write to. */
    var messagesRx: seq<Submission>
    var flushedRx: seq<FlushRequest>
    /** The oneshot senders that have been used, oldest first. */
    var notified: seq<nat>

    ghost function Abs(): State
      reads this, points, messages
    {
      State(points[..], messages[..], queued, owned)
    }

    ghost predicate Good()
      reads this, points, messages
    {
      Valid(Abs()) && ValidSubmissions(messagesRx)
    }

    constructor ()
      ensures Good() && Abs() == Initial()
      ensures messagesRx == [] && flushedRx == [] && notified == []
      ensures fresh(points) && fresh(messages)
    {
      points := new nat[PRIO_MAX](_ => 0);
      messages := new seq<Entry>[PRIO_MAX](_ => []);
      queued, owned := {}, map[];
      messagesRx, flushedRx, notified := [], [], [];
      new;
      assert points[..] == Zeros();
      assert messages[..] == Initial().messages;
      InitialValid();
    }

    method TakeMessages()
      requires Good()
      modifies this, messages
      ensures Abs() == old(EnqueueAll(Abs(), messagesRx)) && messagesRx == []
      ensures flushedRx == old(flushedRx) && notified == old(notified)
    {
      ghost var s := Abs();
      for i := 0 to |messagesRx|
        invariant messagesRx == old(messagesRx) && flushedRx == old(flushedRx) && notified == old(notified)
        invariant Abs() == EnqueueAll(s, messagesRx[..i])
      {
        var sub := messagesRx[i];
        ghost var t := Abs();
        queued := queued + {sub.prio};
        messages[sub.prio] := messages[sub.prio] + [Entry(sub.sid, sub.msg)];
        var info := if sub.sid in owned then owned[sub.sid] else SidInfo(0, None);
        owned := owned[sub.sid := info.(len := info.len + 1)];
        assert messagesRx[..i + 1][..i] == messagesRx[..i];
        assert messages[..] == Enqueue(t, sub).messages;
      }
      assert messagesRx[..|messagesRx|] == messagesRx;
      messagesRx := [];
    }

    method TakeFlushes()
      modifies this
      ensures var o := old(RegisterAll(Outcome(Abs(), [], []), flushedRx));
        Abs() == o.state && notified == old(notified) + o.notified
      ensures flushedRx == [] && messagesRx == old(messagesRx)
    {
      ghost var o := Outcome(Abs(), [], []);
      for i := 0 to |flushedRx|
        invariant flushedRx == old(flushedRx) && messagesRx == old(messagesRx)
        invariant Abs() == RegisterAll(o, flushedRx[..i]).state
        invariant notified == old(notified) + RegisterAll(o, flushedRx[..i]).notified
      {
        var req := flushedRx[i];
        assert flushedRx[..i + 1][..i] == flushedRx[..i];
        if req.sid in owned {
          owned := owned[req.sid := owned[req.sid].(notify := Some(req.id))];
        } else {
          notified := notified + [req.id];
        }
      }
      assert flushedRx[..|flushedRx|] == flushedRx;
      flushedRx := [];
    }

    /** New messages first, flush requests after them. */
    method Tick()
      requires Good()
      modifies this, messages
      ensures Good()
      ensures Abs() == old(Take(Abs(), messagesRx, flushedRx)).state
      ensures notified == old(notified) + old(Take(Abs(), messagesRx, flushedRx)).notified
      ensures messagesRx == [] && flushedRx == []
    {
      TakeValid(Abs(), messagesRx, flushedRx);
      TakeMessages();
      TakeFlushes();
    }

    /** The scan over the unordered set `queued`: the order it happens to be
        visited in does not matter. */
    method CalcNextPrio() returns (next: Option<nat>)
      requires Good()
      ensures next == Next(Abs())
      ensures IsNext(points[..], queued, next)
    {
      var lowest := U32_MAX;
      next := None;
      var rest := queued;
      while rest != {}
        invariant rest <= queued
        invariant IsNext(points[..], queued - rest, next)
        invariant lowest == if next.Some? then points[next.value] else U32_MAX
      {
        var n :| n in rest;
        ghost var seen := queued - rest;
        rest := rest - {n};
        assert queued - rest == seen + {n};
        var p := points[n];
        if p < lowest {
          lowest := p;
          next := Some(n);
        } else if p == lowest && next.Some? && n < next.value {
          next := Some(n);
        }
      }
      assert queued - rest == queued;
      NextIsNext(Abs());
    }

    /** The body of the loop of `fill_frames` once a priority is chosen. */
    method ServeOne(prio: nat, frames: seq<TaggedFrame>) returns (frames': seq<TaggedFrame>)
      requires Good() && Servable(Abs(), prio)
      modifies this, points, messages
      ensures Abs() == old(ServePrio(Abs(), prio)).state
      ensures frames' == frames + old(ServePrio(Abs(), prio)).frames
      ensures notified == old(notified) + old(ServePrio(Abs(), prio)).notified
      ensures messagesRx == old(messagesRx) && flushedRx == old(flushedRx)
    {
      hide Weight;
      ghost var o := ServePrio(Abs(), prio);
      points[prio] := (points[prio] + Weight(prio)) % U32_SIZE;
      var head := messages[prio][0];
      messages[prio] := messages[prio][1..];
      var msg, more, done := FillNext(head.msg, head.sid, frames);
      frames' := more;
      if done {
        if messages[prio] == [] {
          queued := queued - {prio};
        }
        var info := owned[head.sid];
        info := info.(len := info.len - 1);
        owned := owned[head.sid := info];
        if info.len == 0 {
          owned := owned - {head.sid};
          if info.notify.Some? {
            notified := notified + [info.notify.value];
          }
        }
      } else {
        messages[prio] := [Entry(head.sid, msg)] + messages[prio];
      }
      assert messages[..] == o.state.messages && points[..] == o.state.points;
    }

    /** The loop of `fill_frames`. */
    method ServeUpTo(n: nat, frames: seq<TaggedFrame>) returns (frames': seq<TaggedFrame>)
      requires Good()
      modifies this, points, messages
      ensures Valid(Abs()) && messagesRx == old(messagesRx) && flushedRx == old(flushedRx)
      ensures Outcome(Abs(), frames', notified) == old(Then(Outcome(Abs(), frames, notified), Fill(Abs(), n)))
    {
      hide Fill, Valid, ServePrio, Next, IsNext;
      frames' := frames;
      ghost var cur := Abs();
      ghost var acc := Outcome(cur, frames, notified);
      ghost var goal := Then(acc, Fill(cur, n));
      for i := 0 to n
        invariant messagesRx == old(messagesRx) && flushedRx == old(flushedRx)
        invariant Abs() == cur && Valid(cur) && acc.frames == frames' && acc.notified == notified
        invariant goal == Then(acc, Fill(cur, n - i))
      {
        NextReady(cur);
        FillUnfold(cur, n - i);
        var next := CalcNextPrio();
        if next.None? {
          ClearPoints();
          return;
        }
        frames' := ServeOne(next.value, frames');
        ThenAssociates(acc, ServePrio(cur, next.value), Fill(Abs(), n - i - 1));
        acc := Then(acc, ServePrio(cur, next.value));
        cur := Abs();
      }
      FillUnfold(cur, 0);
    }

    method FillFrames(n: nat, frames: seq<TaggedFrame>) returns (frames': seq<TaggedFrame>)
      requires Good()
      modifies this, points, messages
      ensures Good() && messagesRx == [] && flushedRx == []
      ensures var taken := old(Take(Abs(), messagesRx, flushedRx));
        && Valid(taken.state)
        && Abs() == Fill(taken.state, n).state
        && frames' == frames + Fill(taken.state, n).frames
        && notified == old(notified) + taken.notified + Fill(taken.state, n).notified
    {
      Tick();
      frames' := ServeUpTo(n, frames);
    }

    method ClearPoints()
      requires Good()
      modifies points
      ensures Good() && Abs() == old(Abs()).(points := Zeros())
    {
      forall p | 0 <= p < PRIO_MAX {
        points[p] := 0;
      }
      assert points[..] == Zeros();
      assert messages[..] == old(messages[..]);
    }
  }

  lemma ThenAssociates(a: Outcome, b: Outcome, c: Outcome)
    ensures Then(a, Then(b, c)) == Then(Then(a, b), c)
  {
    assert a.frames + (b.frames + c.frames) == a.frames + b.frames + c.frames;
    assert a.notified + (b.notified + c.notified) == a.notified + b.notified + c.notified;
  }
}
