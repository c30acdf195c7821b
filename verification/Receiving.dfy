/** Reassembly on the receiving side: `handle_frames_mgr` of
    network/src/participant.rs. */
module Receiving {
  import opened Frames

  datatype IncomingMessage = IncomingMessage(buffer: seq<byte>, length: nat, mid: nat, sid: nat)

  datatype Delivery = Delivery(sid: nat, data: seq<byte>)

  /** Partial messages by mid, the streams whose receive channel is open, and what
      has been handed to them, oldest first. */
  datatype Receiver = Receiver(partial: map<nat, IncomingMessage>, open: set<nat>, log: seq<Delivery>)

  /** Frames of the handshake and raw frames never reach a participant. */
  predicate ForParticipant(f: Frame) {
    !f.Handshake? && !f.Init? && !f.Raw?
  }

  predicate AllForParticipant(fs: seq<TaggedFrame>) {
    forall i :: 0 <= i < |fs| ==> ForParticipant(fs[i].1)
  }

  function Handle(r: Receiver, f: Frame): Receiver
    requires ForParticipant(f)
  {
    match f
    case OpenStream(sid, _, _) => r.(open := r.open + {sid})
    case CloseStream(sid) => r.(open := r.open - {sid})
    case Shutdown => r.(open := {})
    case DataHeader(mid, sid, length) => r.(partial := r.partial[mid := IncomingMessage([], length, mid, sid)])
    case Data(mid, _, data) =>
      if mid !in r.partial then r
      else
        var m := r.partial[mid];
        var buffer := m.buffer + data;
        if |buffer| != m.length then r.(partial := r.partial[mid := m.(buffer := buffer)])
        else
          Receiver(r.partial - {mid}, r.open, if m.sid in r.open then r.log + [Delivery(m.sid, buffer)] else r.log)
  }

  function HandleAll(r: Receiver, fs: seq<TaggedFrame>): Receiver
    requires AllForParticipant(fs)
  {
    if fs == [] then r else Handle(HandleAll(r, fs[..|fs| - 1]), fs[|fs| - 1].1)
  }

  lemma {:induction false} HandleAllConcat(r: Receiver, a: seq<TaggedFrame>, b: seq<TaggedFrame>)
    requires AllForParticipant(a + b)
    ensures AllForParticipant(a) && AllForParticipant(b)
    ensures HandleAll(r, a + b) == HandleAll(HandleAll(r, a), b)
    decreases |b|
  {
    assert forall i :: 0 <= i < |a| ==> (a + b)[i] == a[i];
    assert forall i :: 0 <= i < |b| ==> (a + b)[|a| + i] == b[i];
    if b == [] {
      assert a + b == a;
    } else {
      var b' := b[..|b| - 1];
      assert (a + b)[..|a + b| - 1] == a + b';
      HandleAllConcat(r, a, b');
    }
  }

  /** What stream `sid` has been handed, in order. */
  function Received(log: seq<Delivery>, sid: nat): seq<seq<byte>> {
    if log == [] then []
    else Received(log[..|log| - 1], sid) + (if log[|log| - 1].sid == sid then [log[|log| - 1].data] else [])
  }

  /** After a `CloseStream` or `Shutdown` a stream is handed nothing more, unless opened again. */
  lemma {:induction false} NothingAfterClosed(r: Receiver, f: Frame, fs: seq<TaggedFrame>, sid: nat)
    requires f == CloseStream(sid) || f == Shutdown
    requires AllForParticipant(fs) && forall i :: 0 <= i < |fs| && fs[i].1.OpenStream? ==> fs[i].1.sid != sid
    ensures var t := HandleAll(Handle(r, f), fs); sid !in t.open && Received(t.log, sid) == Received(r.log, sid)
    decreases |fs|
  {
    if fs != [] {
      var n := |fs| - 1;
      NothingAfterClosed(r, f, fs[..n], sid);
      var u := HandleAll(Handle(r, f), fs[..n]);
      var t := Handle(u, fs[n].1);
      if t.log != u.log {
        assert t.log[..|t.log| - 1] == u.log;
      }
    }
  }

  lemma {:induction false} ReceivedConcat(a: seq<Delivery>, b: seq<Delivery>, sid: nat)
    ensures Received(a + b, sid) == Received(a, sid) + Received(b, sid)
    decreases |b|
  {
    if b == [] {
      assert a + b == a;
    } else {
      var b' := b[..|b| - 1];
      assert (a + b)[..|a + b| - 1] == a + b';
      ReceivedConcat(a, b', sid);
    }
  }

  /** Nothing handed to a stream is ever taken back. */
  lemma {:induction false} LogGrows(r: Receiver, fs: seq<TaggedFrame>, k: nat)
    requires AllForParticipant(fs) && k <= |fs|
    ensures AllForParticipant(fs[..k]) && HandleAll(r, fs[..k]).log <= HandleAll(r, fs).log
    decreases |fs|
  {
    if k == |fs| {
      assert fs[..k] == fs;
    } else {
      var n := |fs| - 1;
      assert fs[..n][..k] == fs[..k];
      LogGrows(r, fs[..n], k);
    }
  }

  /** The manager loop over the frames of one channel. */
  class FrameHandler {
    var partial: map<nat, IncomingMessage>
    var open: set<nat>
    var log: seq<Delivery>

    ghost function Abs(): Receiver
      reads this
    {
      Receiver(partial, open, log)
    }

    method HandleFrame(f: Frame)
      requires ForParticipant(f)
      modifies this
      ensures Abs() == Handle(old(Abs()), f)
    {
      match f
      case OpenStream(sid, _, _) =>
        open := open + {sid};
      case CloseStream(sid) =>
        open := open - {sid};
      case Shutdown =>
        open := {};
      case DataHeader(mid, sid, length) =>
        partial := partial[mid := IncomingMessage([], length, mid, sid)];
      case Data(mid, _, data) =>
        var finished := false;
        if mid in partial {
          partial := partial[mid := partial[mid].(buffer := partial[mid].buffer + data)];
          finished := |partial[mid].buffer| == partial[mid].length;
        }
        if finished {
          var m := partial[mid];
          partial := partial - {mid};
          if m.sid in open {
            log := log + [Delivery(m.sid, m.buffer)];
          }
        }
    }

    method HandleFrames(fs: seq<TaggedFrame>)
      requires AllForParticipant(fs)
      modifies this
      ensures Abs() == HandleAll(old(Abs()), fs)
    {
      for i := 0 to |fs|
        invariant Abs() == HandleAll(old(Abs()), fs[..i])
      {
        HandleFrame(fs[i].1);
        assert fs[..i + 1][..i] == fs[..i];
      }
      assert fs[..|fs|] == fs;
    }
  }
}
