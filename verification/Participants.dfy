/** One participant's managers as a state machine: `open_mgr`, `handle_frames_mgr`,
    `send_mgr`, `stream_close_mgr` and `participant_shutdown_mgr` of
    network/src/participant.rs share one thread of control and switch only where they wait, so
    each stretch between two waits is one move. The API calls of network/src/api.rs
    run elsewhere; `send_raw` is two moves, its check of `send_closed` and its push. */
module Participants {
  import opened Wrappers
  import opened Frames
  import opened Prios
  import opened Flushing
  import opened Receiving
  import opened Delivering
  import opened Filling

  /** The API's `Stream`. `inFlight` is a send that has passed its check. */
  datatype Stream = Stream(mid: nat, closed: bool, alive: bool, inFlight: Option<seq<byte>>)

  datatype CloseMgr =
    | Serving
    | Flushing(sid: nat, id: nat, rest: Option<seq<nat>>)
    | Leftover(todo: seq<nat>)
    | Confirmed

  datatype ShutdownMgr = Running | AwaitClosed | AwaitFlushed | Finished

  /** Asked to stop, `send_mgr` waits for a round that sends nothing (`empty`), sleeps, and
      only then stops. */
  datatype SendMgr = Looping | Stopping(empty: bool) | Stopped

  /** `framesPerTick` is 10005 in the source; nothing here depends on its value.
      Three histories: `wire` is everything handed to the channel, `taken` every non-empty
      message the scheduler has taken in, `late` the streams opened after the leftover
      streams have been listed. */
  datatype System = System(
    framesPerTick: nat,
    prios: State,
    messagesRx: seq<Submission>,
    flushedRx: seq<FlushRequest>,
    told: set<nat>,
    handles: map<nat, Stream>,
    streams: set<nat>,
    nextSid: nat,
    nextId: nat,
    closeRx: seq<nat>,
    closeMgr: CloseMgr,
    shutdownMgr: ShutdownMgr,
    sendMgr: SendMgr,
    disconnected: bool,
    wire: seq<TaggedFrame>,
    taken: seq<Delivery>,
    late: set<nat>)
  {
    /** All non-empty messages accepted from the API, in order. */
    function Accepted(): seq<Delivery> {
      taken + Payloads(messagesRx)
    }
  }

  datatype Move =
    | Open                               // open_mgr: a request of the API
    | RemoteOpen(sid: nat)               // handle_frames_mgr: OpenStream
    | RemoteClose(sid: nat)              // handle_frames_mgr: CloseStream
    | RemoteShutdown                     // handle_frames_mgr: Shutdown
    | SendCheck(sid: nat, data: seq<byte>)
    | SendPush(sid: nat)
    | Drop(sid: nat)
    | Tick                               // send_mgr: one round
    | StopSend                           // send_mgr: its end
    | TakeClose                          // stream_close_mgr: a request of the API
    | TakeShutdown(order: seq<nat>)      // stream_close_mgr: the shutdown signal
    | TakeLeftover                       // stream_close_mgr: its final loop
    | FinishClose                        // delete_stream after the flush
    | Confirm
    | ShutdownRequest                    // participant_shutdown_mgr, step by step
    | ShutdownClosed
    | ShutdownFlushed

  // ----- the moves

  /** The leftover streams have been listed. */
  predicate Listed(c: CloseMgr) {
    c.Leftover? || c.Confirmed? || (c.Flushing? && c.rest.Some?)
  }

  function Opened(s: System, sid: nat): System {
    s.(handles := s.handles[sid := Stream(0, false, true, None)],
       streams := s.streams + {sid},
       late := if Listed(s.closeMgr) then s.late + {sid} else s.late)
  }

  /** An open request that finds no channel: the stream is dropped at once, and its id not used up. */
  const REFUSED: Stream := Stream(0, false, false, None)

  function Refused(s: System): System {
    Opened(s, s.nextSid).(handles := s.handles[s.nextSid := REFUSED], closeRx := s.closeRx + [s.nextSid])
  }

  function CloseHandles(handles: map<nat, Stream>, sids: set<nat>): map<nat, Stream> {
    map sid | sid in handles :: if sid in sids then handles[sid].(closed := true) else handles[sid]
  }

  /** The start of `delete_stream` for a local close: no more sends, then ask the
      scheduler to tell when the stream is flushed. */
  function BeginDelete(s: System, sid: nat, rest: Option<seq<nat>>): System {
    s.(handles := CloseHandles(s.handles, {sid} * s.streams),
       flushedRx := s.flushedRx + [FlushRequest(sid, s.nextId)],
       nextId := s.nextId + 1,
       closeMgr := Flushing(sid, s.nextId, rest))
  }

  ghost predicate Ok(s: System) {
    Valid(s.prios) && ValidSubmissions(s.messagesRx)
  }

  function Taken(s: System): (o: Outcome)
    requires Ok(s)
    ensures Valid(o.state)
  {
    TakeValid(s.prios, s.messagesRx, s.flushedRx);
    Take(s.prios, s.messagesRx, s.flushedRx)
  }

  function Filled(s: System): (o: Outcome)
    requires Ok(s)
    ensures Valid(o.state)
  {
    FillValid(Taken(s).state, s.framesPerTick);
    Fill(Taken(s).state, s.framesPerTick)
  }

  /** `send_mgr`: notice a request to stop, fill, and send all frames. */
  function DoTick(s: System): System
    requires Ok(s)
  {
    var o := Taken(s);
    var f := Filled(s);
    s.(prios := f.state, messagesRx := [], flushedRx := [],
       told := s.told + (set id | id in o.notified) + (set id | id in f.notified),
       wire := s.wire + f.frames,
       taken := s.taken + Payloads(s.messagesRx),
       sendMgr := if s.sendMgr.Looping? && !s.shutdownMgr.AwaitFlushed? then Looping
                  else Stopping(f.frames == []))
  }

  ghost predicate Can(s: System, m: Move, prioOf: nat -> nat, peer: set<nat>) {
    Ok(s) &&
    match m
    case Open =>
      && !s.disconnected && s.nextSid !in peer && prioOf(s.nextSid) < PRIO_MAX
      && (s.nextSid in s.handles ==> s.shutdownMgr.Finished? && s.handles[s.nextSid] == REFUSED)
    case RemoteOpen(sid) => sid in peer && sid !in s.handles && prioOf(sid) < PRIO_MAX
    case RemoteClose(sid) => true
    case RemoteShutdown => true
    case SendCheck(sid, _) => sid in s.handles && s.handles[sid].alive && s.handles[sid].inFlight.None?
    case SendPush(sid) => sid in s.handles && s.handles[sid].inFlight.Some? && prioOf(sid) < PRIO_MAX
    case Drop(sid) => sid in s.handles && s.handles[sid].alive && s.handles[sid].inFlight.None?
    case Tick => !s.sendMgr.Stopped? && s.sendMgr != Stopping(true)
    case StopSend => s.sendMgr == Stopping(true)
    case TakeClose => s.closeMgr.Serving? && s.closeRx != []
    case TakeShutdown(order) =>
      s.closeMgr.Serving? && !s.shutdownMgr.Running? && Enumerates(order, s.streams)
    case TakeLeftover => s.closeMgr.Leftover? && s.closeMgr.todo != []
    case FinishClose => s.closeMgr.Flushing? && s.closeMgr.id in s.told
    case Confirm => s.closeMgr.Leftover? && s.closeMgr.todo == [] && !s.shutdownMgr.Running?
    case ShutdownRequest => s.shutdownMgr.Running?
    case ShutdownClosed => s.shutdownMgr.AwaitClosed? && s.closeMgr.Confirmed?
    case ShutdownFlushed => s.shutdownMgr.AwaitFlushed? && s.sendMgr.Stopped?
  }

  /** `order` lists `sids`, each once, as the iteration over a hash map would. */
  predicate Enumerates(order: seq<nat>, sids: set<nat>) {
    && (forall i, j :: 0 <= i < j < |order| ==> order[i] != order[j])
    && (forall i :: 0 <= i < |order| ==> order[i] in sids)
    && (forall sid :: sid in sids ==> sid in order)
  }

  function Do(s: System, m: Move, prioOf: nat -> nat, peer: set<nat>): System
    requires Can(s, m, prioOf, peer)
  {
    match m
    case Open =>
      if s.shutdownMgr.Finished? then Refused(s)
      else
        Opened(s, s.nextSid).(nextSid := s.nextSid + 1,
                              wire := s.wire + [(s.nextSid, OpenStream(s.nextSid, prioOf(s.nextSid), 0))])
    case RemoteOpen(sid) => Opened(s, sid)
    case RemoteClose(sid) =>
      s.(handles := CloseHandles(s.handles, {sid} * s.streams), streams := s.streams - {sid})
    case RemoteShutdown =>
      s.(handles := CloseHandles(s.handles, s.streams), disconnected := true)
    case SendCheck(sid, data) =>
      if s.handles[sid].closed then s
      else s.(handles := s.handles[sid := s.handles[sid].(inFlight := Some(data))])
    case SendPush(sid) =>
      var h := s.handles[sid];
      if s.sendMgr.Stopped? then s.(handles := s.handles[sid := h.(inFlight := None)])
      else
        s.(handles := s.handles[sid := h.(inFlight := None, mid := h.mid + 1)],
           messagesRx := s.messagesRx +
             [Submission(prioOf(sid), sid, OutgoingMessage(h.inFlight.value, 0, h.mid, sid))])
    case Drop(sid) =>
      s.(handles := s.handles[sid := s.handles[sid].(alive := false)],
         closeRx := if s.handles[sid].closed then s.closeRx else s.closeRx + [sid])
    case Tick => DoTick(s)
    case StopSend => s.(sendMgr := Stopped)
    case TakeClose => BeginDelete(s.(closeRx := s.closeRx[1..]), s.closeRx[0], None)
    case TakeShutdown(order) => s.(closeMgr := Leftover(order))
    case TakeLeftover => BeginDelete(s, s.closeMgr.todo[0], Some(s.closeMgr.todo[1..]))
    case FinishClose =>
      var sid := s.closeMgr.sid;
      s.(streams := s.streams - {sid},
         wire := s.wire + [(sid, CloseStream(sid))],
         closeMgr := if s.closeMgr.rest.None? then Serving else Leftover(s.closeMgr.rest.value))
    case Confirm => s.(closeMgr := Confirmed)
    case ShutdownRequest =>
      s.(handles := CloseHandles(s.handles, s.streams), shutdownMgr := AwaitClosed)
    case ShutdownClosed => s.(shutdownMgr := AwaitFlushed)
    case ShutdownFlushed =>  // with this all channels are closed
      s.(shutdownMgr := Finished, wire := if s.disconnected then s.wire else s.wire + [(0, Shutdown)])
  }

  /** The one thing a run must avoid: taking a leftover stream down while a send of a
      non-empty message on it is under way. */
  predicate Orderly(s: System, m: Move) {
    m.TakeLeftover? && s.closeMgr.Leftover? && s.closeMgr.todo != [] && s.closeMgr.todo[0] in s.handles ==>
      Idle(s.handles[s.closeMgr.todo[0]])
  }

  /** No send, or one of an empty message, is under way. */
  predicate Idle(h: Stream) {
    h.inFlight.None? || h.inFlight == Some([])
  }

  function Start(offset: nat, framesPerTick: nat): System {
    System(framesPerTick, Initial(), [], [], {}, map[], {}, offset, 0, [], Serving, Running, Looping, false, [], [], {})
  }

  // ----- the order of frames

  /** `CloseStream(sid)` has been sent. */
  ghost predicate ClosedOn(wire: seq<TaggedFrame>, sid: nat) {
    exists i :: 0 <= i < |wire| && wire[i].1 == CloseStream(sid)
  }

  predicate IsData(f: TaggedFrame) {
    f.1.DataHeader? || f.1.Data?
  }

  /** Nothing of a stream follows its `CloseStream`, nothing at all follows `Shutdown`. */
  ghost predicate InOrder(wire: seq<TaggedFrame>) {
    && (forall i, j :: 0 <= i < j < |wire| && wire[i].1.CloseStream? && IsData(wire[j]) ==>
          wire[j].0 != wire[i].1.sid)
    && (forall i :: 0 <= i < |wire| && wire[i].1.Shutdown? ==> i == |wire| - 1)
  }

  /** `Shutdown` has been sent. */
  ghost predicate ShutdownSent(wire: seq<TaggedFrame>) {
    exists i :: 0 <= i < |wire| && wire[i].1.Shutdown?
  }

  /** Nothing of `sid` is queued or about to be, empty messages apart. */
  ghost predicate Quiet(s: System, sid: nat) {
    && sid in s.handles && s.handles[sid].closed && Idle(s.handles[sid])
    && NoneFull(s.messagesRx, sid)
    && Hollow(s.prios.messages, sid)
  }

  /** Progress of the flush of the stream being deleted. */
  ghost predicate FlushPending(s: System, sid: nat, id: nat) {
    && sid in s.handles && s.handles[sid].closed && Idle(s.handles[sid])
    && id < s.nextId
    && (id in s.told ==> s.flushedRx == [] && Quiet(s, sid))
    && (id !in s.told ==>
          || (s.flushedRx == [FlushRequest(sid, id)] && Unused(s.prios.owned, id))
          || (s.flushedRx == [] && NoneFull(s.messagesRx, sid) && Waiting(s.prios, sid, id)))
  }

  ghost predicate Unused(owned: map<nat, SidInfo>, id: nat) {
    forall t: nat :: t in owned ==> owned[t].notify != Some(id)
  }

  ghost predicate HandlesOk(s: System) {
    && (forall sid :: sid in s.streams ==> sid in s.handles)
    && (forall sid :: sid in s.handles && sid !in s.streams ==> s.handles[sid].closed)
    && (forall sid :: sid in s.handles && !s.handles[sid].alive ==> s.handles[sid].inFlight.None?)
    && (forall i :: 0 <= i < |s.closeRx| ==> s.closeRx[i] in s.handles && !s.handles[s.closeRx[i]].alive)
    && (s.closeMgr.Flushing? ==> s.closeMgr.sid in s.handles && s.handles[s.closeMgr.sid].closed)
  }

  /** `stream_close_mgr` is to delete the stream, or is at it. */
  predicate Requested(s: System, sid: nat) {
    sid in s.closeRx || (s.closeMgr.Flushing? && s.closeMgr.sid == sid)
  }

  /** As long as neither side shuts down, a stream on the table is dropped or closed only if its
      deletion has been requested. */
  ghost predicate RequestsOk(s: System) {
    forall sid :: sid in s.streams && sid in s.handles && s.shutdownMgr.Running? && !s.disconnected ==>
      s.handles[sid].closed || !s.handles[sid].alive ==> Requested(s, sid)
  }

  ghost predicate IdsOk(s: System) {
    && IdsBelow(s.prios.owned, s.nextId)
    && (forall id :: id in s.told ==> id < s.nextId)
    && (s.closeMgr.Flushing? ==> FlushPending(s, s.closeMgr.sid, s.closeMgr.id))
    && (!s.closeMgr.Flushing? ==> s.flushedRx == [])
  }

  /** Once shutting down, the streams left are the ones still to be deleted. */
  ghost predicate PhasesOk(s: System) {
    && (s.closeMgr.Leftover? ==>
          !s.shutdownMgr.Running? && forall sid :: sid in s.streams ==> sid in s.closeMgr.todo || sid in s.late)
    && (s.closeMgr.Leftover? ==> forall i :: 0 <= i < |s.closeMgr.todo| ==> s.closeMgr.todo[i] in s.handles)
    && (s.closeMgr.Flushing? && s.closeMgr.rest.Some? ==>
          && !s.shutdownMgr.Running?
          && forall sid :: sid in s.streams ==>
               sid == s.closeMgr.sid || sid in s.closeMgr.rest.value || sid in s.late)
    && (s.closeMgr.Flushing? && s.closeMgr.rest.Some? ==>
          forall i :: 0 <= i < |s.closeMgr.rest.value| ==> s.closeMgr.rest.value[i] in s.handles)
    && (s.closeMgr.Confirmed? ==> !s.shutdownMgr.Running? && s.streams <= s.late)
    && (s.shutdownMgr.AwaitFlushed? || s.shutdownMgr.Finished? ==> s.closeMgr.Confirmed?)
    && (s.shutdownMgr.Finished? ==> s.sendMgr.Stopped?)
    && (!s.sendMgr.Looping? ==> s.shutdownMgr.AwaitFlushed? || s.shutdownMgr.Finished?)
  }

  ghost predicate WireOk(s: System) {
    && AllForParticipant(s.wire)
    && InOrder(s.wire)
    && (forall i :: 0 <= i < |s.wire| && s.wire[i].1.CloseStream? ==>
          s.wire[i].0 == s.wire[i].1.sid && Quiet(s, s.wire[i].1.sid) && s.wire[i].1.sid !in s.streams)
    && (forall i :: 0 <= i < |s.wire| && s.wire[i].1.Shutdown? ==> s.shutdownMgr.Finished?)
    && (s.shutdownMgr.Finished? && !s.disconnected ==> ShutdownSent(s.wire))
  }

  ghost predicate Inv(s: System) {
    && Ok(s)
    && HandlesOk(s)
    && IdsOk(s)
    && PhasesOk(s)
    && RequestsOk(s)
    && WireOk(s)
  }

  // ----- the tick

  /** A quiet stream stays quiet through a tick and gets no frame of it. */
  lemma TickQuiet(s: System, sid: nat)
    requires Ok(s) && Quiet(s, sid)
    ensures Quiet(DoTick(s), sid)
    ensures forall i :: 0 <= i < |Filled(s).frames| ==> Filled(s).frames[i].0 != sid
  {
    Shape(s.prios);
    TakeValid(s.prios, s.messagesRx, s.flushedRx);
    EnqueueAllHollow(s.prios, s.messagesRx, sid);
    FillHollow(Taken(s).state, s.framesPerTick, sid);
  }

  /** The flush of the stream being deleted through a tick. */
  lemma TickFlush(s: System, sid: nat, id: nat)
    requires Ok(s) && FlushPending(s, sid, id)
    ensures FlushPending(DoTick(s), sid, id)
  {
    if id in s.told {
      TickQuiet(s, sid);
    } else {
      var o, f := Taken(s), Filled(s);
      TakeValid(s.prios, s.messagesRx, s.flushedRx);
      if s.flushedRx == [] {
        EnqueueAllWaiting(s.prios, s.messagesRx, sid, id);
        WaitingCount(Taken(s).state, sid, id);
      } else {
        RequestAnswered(s.prios, s.messagesRx, s.flushedRx, 0);
      }
      FillTags(o.state, s.framesPerTick);
      if Count(o.state.messages, sid) != 0 {
        FillWaiting(o.state, s.framesPerTick, sid, id);
      }
      if Count(f.state.messages, sid) == 0 {
        CountZero(f.state.messages, sid);
      }
    }
  }

  lemma KeepTick(s: System)
    requires Inv(s) && !s.sendMgr.Stopped?
    ensures Inv(DoTick(s))
  {
    KeepTickIds(s);
    KeepTickWire(s);
  }

  lemma KeepTickIds(s: System)
    requires Inv(s)
    ensures IdsOk(DoTick(s))
  {
    hide Valid, Count, Waiting, WireOk, HandlesOk, PhasesOk, FlushPending;
    TakeIds(s);
    FillIds(Taken(s).state, s.framesPerTick, s.nextId);
    if s.closeMgr.Flushing? {
      TickFlush(s, s.closeMgr.sid, s.closeMgr.id);
    }
  }

  lemma KeepTickWire(s: System)
    requires Inv(s) && !s.sendMgr.Stopped?
    ensures WireOk(DoTick(s))
  {
    hide Valid, Count, Waiting, IdsOk, Quiet;
    var t, f := DoTick(s), Filled(s).frames;
    FillTags(Taken(s).state, s.framesPerTick);
    forall i | 0 <= i < |s.wire| && s.wire[i].1.CloseStream?
      ensures Quiet(t, s.wire[i].1.sid)
      ensures forall k :: 0 <= k < |f| ==> f[k].0 != s.wire[i].1.sid
    {
      TickQuiet(s, s.wire[i].1.sid);
    }
    assert forall i :: 0 <= i < |t.wire| && (t.wire[i].1.CloseStream? || t.wire[i].1.Shutdown?) ==>
      i < |s.wire| && t.wire[i] == s.wire[i];
    assert AllForParticipant(t.wire) && InOrder(t.wire);
  }

  lemma TakeIds(s: System)
    requires Ok(s) && IdsOk(s)
    ensures IdsBelow(Taken(s).state.owned, s.nextId) && AllBelow(Taken(s).notified, s.nextId)
  {
    EnqueueAllIds(s.prios, s.messagesRx, s.nextId);
    var o := Outcome(EnqueueAll(s.prios, s.messagesRx), [], []);
    if s.flushedRx != [] {
      var req := s.flushedRx[0];
      assert |s.flushedRx[..0]| == 0 && s.flushedRx == [req];
      assert RegisterAll(o, s.flushedRx) == Register(o, req);
    }
  }

  lemma KeepHandles(s: System, m: Move, prioOf: nat -> nat, peer: set<nat>)
    requires HandlesOk(s) && PhasesOk(s) && Can(s, m, prioOf, peer) && !m.Tick?
    ensures HandlesOk(Do(s, m, prioOf, peer))
  {
    hide Ok;
    if m.TakeLeftover? || m.TakeClose? {
      KeepHandlesOnDelete(s, m, prioOf, peer);
    }
  }

  lemma KeepHandlesOnDelete(s: System, m: Move, prioOf: nat -> nat, peer: set<nat>)
    requires HandlesOk(s) && PhasesOk(s) && Can(s, m, prioOf, peer) && (m.TakeLeftover? || m.TakeClose?)
    ensures HandlesOk(Do(s, m, prioOf, peer))
  {
    hide Ok;
  }

  lemma KeepOk(s: System, m: Move, prioOf: nat -> nat, peer: set<nat>)
    requires Can(s, m, prioOf, peer) && !m.Tick?
    ensures Ok(Do(s, m, prioOf, peer))
  {
    hide Valid;
  }

  lemma KeepPhases(s: System, m: Move, prioOf: nat -> nat, peer: set<nat>)
    requires HandlesOk(s) && PhasesOk(s) && Can(s, m, prioOf, peer) && !m.Tick?
    ensures PhasesOk(Do(s, m, prioOf, peer))
  {
    hide Ok;
  }

  lemma KeepIds(s: System, m: Move, prioOf: nat -> nat, peer: set<nat>)
    requires Inv(s) && Can(s, m, prioOf, peer) && Orderly(s, m) && !m.Tick?
    ensures IdsOk(Do(s, m, prioOf, peer))
  {
    hide Valid, InOrder, Count, Waiting, WireOk;
    if m.TakeLeftover? || m.TakeClose? {
      KeepIdsOnDelete(s, m, prioOf, peer);
      hide IdsOk;
    }
  }

  lemma KeepIdsOnDelete(s: System, m: Move, prioOf: nat -> nat, peer: set<nat>)
    requires HandlesOk(s) && IdsOk(s) && PhasesOk(s)
    requires Can(s, m, prioOf, peer) && Orderly(s, m) && (m.TakeLeftover? || m.TakeClose?)
    ensures IdsOk(Do(s, m, prioOf, peer))
  {
    hide Ok, Quiet, Waiting;
  }

  /** A quiet stream stays quiet: its handle no longer lets a send begin. */
  lemma KeepQuiet(s: System, m: Move, prioOf: nat -> nat, peer: set<nat>, sid: nat)
    requires Can(s, m, prioOf, peer) && !m.Tick? && Quiet(s, sid)
    ensures Quiet(Do(s, m, prioOf, peer), sid)
    ensures sid !in s.streams ==> sid !in Do(s, m, prioOf, peer).streams
  {
  }

  /** Only three other moves write to the channel, one frame each, and none after `Shutdown`. */
  lemma OneFrame(s: System, m: Move, prioOf: nat -> nat, peer: set<nat>)
    requires Inv(s) && Can(s, m, prioOf, peer) && !m.Tick?
    ensures var w := Do(s, m, prioOf, peer).wire;
      w == s.wire || (w == s.wire + [w[|s.wire|]] && !IsData(w[|s.wire|]) && ForParticipant(w[|s.wire|].1))
    ensures s.shutdownMgr.Finished? ==> Do(s, m, prioOf, peer).wire == s.wire
  {
  }

  lemma KeepWire(s: System, m: Move, prioOf: nat -> nat, peer: set<nat>)
    requires Inv(s) && Can(s, m, prioOf, peer) && Orderly(s, m) && !m.Tick?
    ensures WireOk(Do(s, m, prioOf, peer))
  {
    hide Valid, Count, Quiet, Waiting;
    var t := Do(s, m, prioOf, peer);
    OneFrame(s, m, prioOf, peer);
    forall i | 0 <= i < |t.wire| && t.wire[i].1.CloseStream?
      ensures t.wire[i].0 == t.wire[i].1.sid && Quiet(t, t.wire[i].1.sid) && t.wire[i].1.sid !in t.streams
    {
      if i < |s.wire| {
        assert t.wire[i] == s.wire[i];
        KeepQuiet(s, m, prioOf, peer, s.wire[i].1.sid);
      } else {
        assert m.FinishClose?;
        KeepQuiet(s, m, prioOf, peer, s.closeMgr.sid);
      }
    }
    assert AllForParticipant(t.wire) && InOrder(t.wire);
  }

  lemma KeepRequests(s: System, m: Move, prioOf: nat -> nat, peer: set<nat>)
    requires HandlesOk(s) && PhasesOk(s) && RequestsOk(s) && Can(s, m, prioOf, peer) && !m.Tick?
    ensures RequestsOk(Do(s, m, prioOf, peer))
  {
    hide Ok;
    if m.TakeClose? {
      assert s.closeRx == [s.closeRx[0]] + s.closeRx[1..];
    }
  }

  lemma KeepInv(s: System, m: Move, prioOf: nat -> nat, peer: set<nat>)
    requires Inv(s) && Can(s, m, prioOf, peer) && Orderly(s, m)
    ensures Inv(Do(s, m, prioOf, peer))
  {
    if m.Tick? {
      KeepTick(s);
    } else {
      hide WireOk, IdsOk, PhasesOk, HandlesOk, RequestsOk, Ok;
      KeepRequests(s, m, prioOf, peer);
      KeepOk(s, m, prioOf, peer);
      KeepHandles(s, m, prioOf, peer);
      KeepPhases(s, m, prioOf, peer);
      KeepIds(s, m, prioOf, peer);
      KeepWire(s, m, prioOf, peer);
    }
  }
}
