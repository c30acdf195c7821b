/** The frames two participants exchange, and the message a stream hands to the
    scheduler (network/src/types.rs, network/src/message.rs). */
module Frames {
  newtype byte = x: int | 0 <= x < 256

  /** Sid, Mid, Prio and Promises are unsigned integers; the wire codec states
      their widths. */
  datatype Frame =
    | Handshake(magic: seq<byte>, version: seq<nat>)
    | Init(pid: nat, secret: nat)
    | Shutdown
    | OpenStream(sid: nat, prio: nat, promises: byte)
    | CloseStream(sid: nat)
    | DataHeader(mid: nat, sid: nat, length: nat)
    | Data(mid: nat, start: nat, data: seq<byte>)
    | Raw(data: seq<byte>)

  /** A frame together with the stream it was produced for, as `fill_frames` hands
      it to `send_mgr`. */
  type TaggedFrame = (nat, Frame)

  const FRAME_DATA_SIZE: nat := 1400

  /** An outgoing message is owned by the queue it sits in and moved out and back
      while it is cut up, so it is a value here. */
  datatype OutgoingMessage = OutgoingMessage(buffer: seq<byte>, cursor: nat, mid: nat, sid: nat)
  {
    predicate Valid() {
      cursor <= |buffer|
    }

    function ToSend(): nat
      requires Valid()
    {
      if |buffer| - cursor < FRAME_DATA_SIZE then |buffer| - cursor else FRAME_DATA_SIZE
    }

    /** The next frames of this message: a header in front of the first chunk, at
        most one chunk, nothing once the buffer is used up. */
    function NextFrames(tag: nat): (fs: seq<TaggedFrame>)
      requires Valid()
    {
      if ToSend() == 0 then []
      else
        (if cursor == 0 then [(tag, DataHeader(mid, sid, |buffer|))] else []) +
        [(tag, Data(mid, cursor, buffer[cursor..cursor + ToSend()]))]
    }

    function Advanced(): (m: OutgoingMessage)
      requires Valid()
    {
      this.(cursor := cursor + ToSend())
    }

    predicate Finished() {
      cursor >= |buffer|
    }
  }

  /** `OutgoingMessage::fill_next`: appends to `frames` and moves the cursor. */
  method FillNext(msg: OutgoingMessage, tag: nat, frames: seq<TaggedFrame>)
    returns (msg': OutgoingMessage, frames': seq<TaggedFrame>, done: bool)
    requires msg.Valid()
    ensures frames' == frames + msg.NextFrames(tag)
    ensures msg' == msg.Advanced() && msg'.Valid()
    ensures done == msg'.Finished()
  {
    frames' := frames;
    var rest := |msg.buffer[msg.cursor..]|;
    var toSend := if rest < FRAME_DATA_SIZE then rest else FRAME_DATA_SIZE;
    if toSend > 0 {
      if msg.cursor == 0 {
        frames' := frames' + [(tag, DataHeader(msg.mid, msg.sid, |msg.buffer|))];
      }
      frames' := frames' + [(tag, Data(msg.mid, msg.cursor, msg.buffer[msg.cursor..][..toSend]))];
      assert msg.buffer[msg.cursor..][..toSend] == msg.buffer[msg.cursor..msg.cursor + toSend];
    }
    msg' := msg.(cursor := msg.cursor + toSend);
    done := msg'.cursor >= |msg.buffer|;
  }
}
