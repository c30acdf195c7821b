/** The handshake of two endpoints over FIFO links (network/src/channel.rs). */
module Handshakes {
  import opened Frames

  const STREAM_ID_OFFSET1: nat := 0
  const STREAM_ID_OFFSET2: nat := 0xFFFF_FFFF_FFFF_FFFF / 2

  /** What the read protocol passes on: a frame, or that the connection broke. */
  datatype Item = Got(frame: Frame) | Interrupted

  datatype Pc =
    | Begin
    | AwaitHandshake
    | AwaitInit
    | Succeeded(remote: nat, offset: nat, remoteSecret: nat)
    | Running(remote: nat, offset: nat, remoteSecret: nat)
    | Failed
  {
    predicate Ok() {
      Succeeded? || Running?
    }
  }

  /** `magic` and `version` are what the endpoint sends and what it expects; the
      texts are what a debug build answers to a mismatch. `sent`, `seen` and `app`
      are histories: all frames sent, all frames taken out of the inbox or handed on,
      and the frames of the participant after the handshake. */
  datatype Endpoint = Endpoint(
    init: bool,
    pid: nat,
    secret: nat,
    magic: seq<byte>,
    version: seq<nat>,
    debug: bool,
    wrongNumber: seq<byte>,
    wrongVersion: seq<byte>,
    pc: Pc,
    inbox: seq<Item>,
    delivered: seq<Frame>,
    sent: seq<Frame>,
    seen: seq<Frame>,
    app: seq<Frame>)
  {
    function Hello(): Frame {
      Handshake(magic, version)
    }

    function Me(): Frame {
      Init(pid, secret)
    }
  }

  datatype Step = Step(e: Endpoint, out: seq<Frame>)

  function Send(e: Endpoint, fs: seq<Frame>): Step {
    Step(e.(sent := e.sent + fs), fs)
  }

  function Take(e: Endpoint): Endpoint
    requires e.inbox != []
  {
    e.(inbox := e.inbox[1..], seen := if e.inbox[0].Got? then e.seen + [e.inbox[0].frame] else e.seen)
  }

  /** `frame_handler` up to its next wait. */
  function Handle(e: Endpoint): Step
    requires e.pc.Begin? || ((e.pc.AwaitHandshake? || e.pc.AwaitInit?) && e.inbox != [])
  {
    match e.pc
    case Begin =>
      Send(e.(pc := AwaitHandshake), if e.init then [e.Hello()] else [])
    case AwaitHandshake =>
      var t := Take(e);
      (match e.inbox[0]
       case Got(Handshake(magic, version)) =>
         if magic != e.magic then
           Send(t.(pc := Failed), if e.debug then [Raw(e.wrongNumber), Shutdown] else [])
         else if version != e.version then
           Send(t.(pc := Failed), if e.debug then [Raw(e.wrongVersion), Shutdown] else [])
         else Send(t.(pc := AwaitInit), [if e.init then e.Me() else e.Hello()])
       case _ => Step(t.(pc := Failed), []))
    case AwaitInit =>
      var t := Take(e);
      (match e.inbox[0]
       case Got(Init(pid, secret)) =>
         if e.init then Step(t.(pc := Succeeded(pid, STREAM_ID_OFFSET1, secret)), [])
         else Send(t.(pc := Succeeded(pid, STREAM_ID_OFFSET2, secret)), [e.Me()])
       case _ => Step(t.(pc := Failed), []))
  }

  function FramesIn(items: seq<Item>): seq<Frame> {
    if items == [] then []
    else (if items[0].Got? then [items[0].frame] else []) + FramesIn(items[1..])
  }

  /** `setup` hands what is left in the inbox to `Channel::run`, which passes it on
      before anything it reads itself. */
  function Finish(e: Endpoint): Endpoint
    requires e.pc.Succeeded?
  {
    e.(pc := Running(e.pc.remote, e.pc.offset, e.pc.remoteSecret),
       inbox := [], seen := e.seen + FramesIn(e.inbox), delivered := e.delivered + FramesIn(e.inbox))
  }

  /** The read protocol: into the inbox during the handshake, to the participant after it. */
  function Read(e: Endpoint, f: Frame): Endpoint {
    if e.pc.Running? then e.(seen := e.seen + [f], delivered := e.delivered + [f])
    else e.(inbox := e.inbox + [Got(f)])
  }

  /** `a` and `b` with what is under way to each; `hung` once the reader has
      noticed that the other side closed the connection. */
  datatype World = World(a: Endpoint, b: Endpoint, toA: seq<Frame>, toB: seq<Frame>, hungA: bool, hungB: bool)

  datatype Move =
    | HandleA | HandleB | ReadA | ReadB | FinishA | FinishB | HangupA | HangupB | AppA(f: Frame) | AppB(f: Frame)
  {
    predicate App() {
      AppA? || AppB?
    }
  }

  predicate CanHandle(e: Endpoint) {
    e.pc.Begin? || ((e.pc.AwaitHandshake? || e.pc.AwaitInit?) && e.inbox != [])
  }

  /** A closed connection is noticed once everything sent before has been read. */
  predicate CanHangup(e: Endpoint, peer: Endpoint, under: seq<Frame>, hung: bool) {
    !e.pc.Failed? && !e.pc.Running? && peer.pc.Failed? && under == [] && !hung
  }

  predicate Can(w: World, m: Move) {
    match m
    case HandleA => CanHandle(w.a)
    case HandleB => CanHandle(w.b)
    case ReadA => !w.a.pc.Failed? && w.toA != []
    case ReadB => !w.b.pc.Failed? && w.toB != []
    case FinishA => w.a.pc.Succeeded?
    case FinishB => w.b.pc.Succeeded?
    case HangupA => CanHangup(w.a, w.b, w.toA, w.hungA)
    case HangupB => CanHangup(w.b, w.a, w.toB, w.hungB)
    case AppA(_) => w.a.pc.Running?
    case AppB(_) => w.b.pc.Running?
  }

  function Do(w: World, m: Move): World
    requires Can(w, m)
  {
    match m
    case HandleA => var s := Handle(w.a); w.(a := s.e, toB := w.toB + s.out)
    case HandleB => var s := Handle(w.b); w.(b := s.e, toA := w.toA + s.out)
    case ReadA => w.(a := Read(w.a, w.toA[0]), toA := w.toA[1..])
    case ReadB => w.(b := Read(w.b, w.toB[0]), toB := w.toB[1..])
    case FinishA => w.(a := Finish(w.a))
    case FinishB => w.(b := Finish(w.b))
    case HangupA => w.(a := w.a.(inbox := w.a.inbox + [Interrupted]), hungA := true)
    case HangupB => w.(b := w.b.(inbox := w.b.inbox + [Interrupted]), hungB := true)
    case AppA(f) => w.(a := w.a.(sent := w.a.sent + [f], app := w.a.app + [f]), toB := w.toB + [f])
    case AppB(f) => w.(b := w.b.(sent := w.b.sent + [f], app := w.b.app + [f]), toA := w.toA + [f])
  }

  predicate Fresh(e: Endpoint) {
    e.pc.Begin? && e.inbox == [] && e.delivered == [] && e.sent == [] && e.seen == [] && e.app == []
  }

  predicate Start(w: World) {
    && Fresh(w.a) && Fresh(w.b) && w.toA == [] && w.toB == [] && !w.hungA && !w.hungB
    && w.a.init && !w.b.init
  }

  predicate Matching(w: World) {
    w.a.magic == w.b.magic && w.a.version == w.b.version
  }

  ghost predicate Reaches(w: World, moves: seq<Move>, t: World)
    decreases |moves|
  {
    if moves == [] then w == t
    else Can(w, moves[0]) && Reaches(Do(w, moves[0]), moves[1..], t)
  }

  // ----- every run of non-participant moves ends

  function Rank(e: Endpoint): nat {
    match e.pc
    case Begin => 4
    case AwaitHandshake => 3
    case AwaitInit => 2
    case Succeeded(_, _, _) => 1
    case Running(_, _, _) => 0
    case Failed => 0
  }

  function Measure(w: World): nat {
    3 * Rank(w.a) + 3 * Rank(w.b) + |w.toA| + |w.toB| + (if w.hungA then 0 else 1) + (if w.hungB then 0 else 1)
  }

  /** Every move but the participants' own sends brings the end nearer. */
  lemma MovesEnd(w: World, m: Move)
    requires Can(w, m) && !m.App()
    ensures Measure(Do(w, m)) < Measure(w)
  {
    hide Handle, Rank;
    match m
    case HandleA => HandleRanks(w.a);
    case HandleB => HandleRanks(w.b);
    case FinishA => FinishRanks(w.a);
    case FinishB => FinishRanks(w.b);
    case ReadA => ReadRanks(w.a, w.toA[0]);
    case ReadB => ReadRanks(w.b, w.toB[0]);
    case HangupA => HangupRanks(w.a);
    case HangupB => HangupRanks(w.b);
    case _ =>
  }

  lemma HandleRanks(e: Endpoint)
    requires CanHandle(e)
    ensures Rank(Handle(e).e) < Rank(e) && |Handle(e).out| <= 2
  {
  }

  lemma FinishRanks(e: Endpoint)
    requires e.pc.Succeeded?
    ensures Rank(Finish(e)) < Rank(e)
  {
  }

  lemma ReadRanks(e: Endpoint, f: Frame)
    ensures Rank(Read(e, f)) == Rank(e)
  {
  }

  lemma HangupRanks(e: Endpoint)
    ensures Rank(e.(inbox := e.inbox + [Interrupted])) == Rank(e)
  {
  }

  // ----- matching endpoints

  lemma {:induction false} FramesInConcat(a: seq<Item>, b: seq<Item>)
    ensures FramesIn(a + b) == FramesIn(a) + FramesIn(b)
  {
    if a == [] {
      assert a + b == b;
    } else {
      FramesInConcat(a[1..], b);
      assert (a + b)[1..] == a[1..] + b;
    }
  }

  ghost predicate NoBreak(e: Endpoint) {
    forall i :: 0 <= i < |e.inbox| ==> e.inbox[i].Got?
  }

  /** How far an endpoint is fixes what it has sent and seen. */
  ghost predicate Along(e: Endpoint, peer: Endpoint) {
    && NoBreak(e)
    && (!e.pc.Running? ==> e.app == [] && e.delivered == [])
    && (e.pc.Running? ==> e.inbox == [])
    && match e.pc
       case Begin => e.sent == [] && e.seen == []
       case AwaitHandshake => e.sent == (if e.init then [e.Hello()] else []) && e.seen == []
       case AwaitInit => e.sent == (if e.init then [e.Hello(), e.Me()] else [e.Hello()]) && e.seen == [peer.Hello()]
       case Succeeded(remote, offset, secret) => Agreed(e, peer)
       case Running(remote, offset, secret) => Agreed(e, peer)
       case Failed => false
  }

  /** The endpoint ended with the other's pid and secret, and its own half of the stream ids. */
  ghost predicate Agreed(e: Endpoint, peer: Endpoint) {
    && e.pc.Ok()
    && e.pc.remote == peer.pid && e.pc.remoteSecret == peer.secret
    && e.pc.offset == (if e.init then STREAM_ID_OFFSET1 else STREAM_ID_OFFSET2)
    && e.sent == [e.Hello(), e.Me()] + e.app
    && e.seen == [peer.Hello(), peer.Me()] + e.delivered
  }

  /** Links lose, reorder and invent nothing. */
  ghost predicate Fifo(e: Endpoint, peer: Endpoint, under: seq<Frame>) {
    e.seen + FramesIn(e.inbox) + under == peer.sent
  }

  ghost predicate Inv(w: World) {
    && w.a.init && !w.b.init && Matching(w)
    && Along(w.a, w.b) && Along(w.b, w.a)
    && Fifo(w.a, w.b, w.toA) && Fifo(w.b, w.a, w.toB)
  }

  /** The next item of the inbox is the next frame the peer sent. */
  lemma NextItem(e: Endpoint, peer: Endpoint, under: seq<Frame>)
    requires Fifo(e, peer, under) && NoBreak(e) && e.inbox != []
    ensures |e.seen| < |peer.sent| && e.inbox[0] == Got(peer.sent[|e.seen|])
    ensures Take(e).seen + FramesIn(Take(e).inbox) + under == peer.sent
  {
    assert FramesIn(e.inbox) == [e.inbox[0].frame] + FramesIn(e.inbox[1..]);
    assert e.seen + FramesIn(e.inbox) == Take(e).seen + FramesIn(Take(e).inbox);
  }

  /** What a handling does to an endpoint that is on its way. */
  lemma HandleResult(e: Endpoint, peer: Endpoint, under: seq<Frame>)
    requires e.init != peer.init && e.magic == peer.magic && e.version == peer.version
    requires Along(e, peer) && Along(peer, e) && Fifo(e, peer, under) && CanHandle(e)
    ensures Handle(e).e.sent == e.sent + Handle(e).out
    ensures Handle(e).e.Hello() == e.Hello() && Handle(e).e.Me() == e.Me()
    ensures e.pc.Begin? ==> Handle(e) == Send(e.(pc := AwaitHandshake), if e.init then [e.Hello()] else [])
    ensures e.pc.AwaitHandshake? ==>
      && e.inbox[0] == Got(peer.Hello())
      && Handle(e) == Send(Take(e).(pc := AwaitInit), [if e.init then e.Me() else e.Hello()])
    ensures e.pc.AwaitInit? ==>
      && e.inbox[0] == Got(peer.Me())
      && Handle(e) ==
         if e.init then Step(Take(e).(pc := Succeeded(peer.pid, STREAM_ID_OFFSET1, peer.secret)), [])
         else Send(Take(e).(pc := Succeeded(peer.pid, STREAM_ID_OFFSET2, peer.secret)), [e.Me()])
  {
    if e.inbox != [] {
      NextItem(e, peer, under);
    }
  }

  lemma HandleGoesAlong(e: Endpoint, peer: Endpoint, under: seq<Frame>)
    requires e.init != peer.init && e.magic == peer.magic && e.version == peer.version
    requires Along(e, peer) && Along(peer, e) && Fifo(e, peer, under) && CanHandle(e)
    ensures Along(Handle(e).e, peer) && Along(peer, Handle(e).e)
    ensures Handle(e).e.init == e.init && Handle(e).e.magic == e.magic && Handle(e).e.version == e.version
  {
    HandleResult(e, peer, under);
    PeerAlong(peer, e, Handle(e).e);
    hide Handle, Fifo;
  }

  /** Who the other side is is all an endpoint's progress depends on. */
  lemma PeerAlong(e: Endpoint, peer: Endpoint, peer': Endpoint)
    requires Along(e, peer) && peer'.Hello() == peer.Hello() && peer'.Me() == peer.Me()
    ensures Along(e, peer')
  {
  }

  /** One endpoint handling: it goes along, and its own sends keep the other link FIFO. */
  lemma HandleAlong(e: Endpoint, peer: Endpoint, under: seq<Frame>, other: seq<Frame>)
    requires e.init != peer.init && e.magic == peer.magic && e.version == peer.version
    requires Along(e, peer) && Along(peer, e) && Fifo(e, peer, under) && Fifo(peer, e, other) && CanHandle(e)
    ensures var s := Handle(e);
      && Along(s.e, peer) && Along(peer, s.e)
      && Fifo(s.e, peer, under) && Fifo(peer, s.e, other + s.out)
      && s.e.init == e.init && s.e.magic == e.magic && s.e.version == e.version
  {
    HandleResult(e, peer, under);
    HandleGoesAlong(e, peer, under);
    if e.inbox != [] {
      NextItem(e, peer, under);
    }
    hide Handle, FramesIn, Along;
    var s := Handle(e);
    assert peer.seen + FramesIn(peer.inbox) + (other + s.out) == peer.seen + FramesIn(peer.inbox) + other + s.out;
  }

  lemma ReadAlong(e: Endpoint, peer: Endpoint, under: seq<Frame>)
    requires Along(e, peer) && Along(peer, e) && Fifo(e, peer, under) && under != []
    ensures Along(Read(e, under[0]), peer) && Along(peer, Read(e, under[0]))
    ensures Fifo(Read(e, under[0]), peer, under[1..])
  {
    ReadFifo(e, peer, under);
    hide Fifo, FramesIn;
  }

  lemma ReadFifo(e: Endpoint, peer: Endpoint, under: seq<Frame>)
    requires Fifo(e, peer, under) && under != [] && (e.pc.Running? ==> e.inbox == [])
    ensures Fifo(Read(e, under[0]), peer, under[1..])
  {
    assert under == [under[0]] + under[1..];
    if !e.pc.Running? {
      FramesInConcat(e.inbox, [Got(under[0])]);
      assert |[Got(under[0])][1..]| == 0;
      assert FramesIn([Got(under[0])]) == [under[0]];
    }
  }

  lemma FinishAlong(e: Endpoint, peer: Endpoint, under: seq<Frame>)
    requires Along(e, peer) && Along(peer, e) && Fifo(e, peer, under) && e.pc.Succeeded?
    ensures Along(Finish(e), peer) && Along(peer, Finish(e)) && Fifo(Finish(e), peer, under)
  {
  }

  lemma AppAlong(e: Endpoint, peer: Endpoint, other: seq<Frame>, f: Frame)
    requires Along(e, peer) && Along(peer, e) && Fifo(peer, e, other) && e.pc.Running?
    ensures var e' := e.(sent := e.sent + [f], app := e.app + [f]);
      Along(e', peer) && Along(peer, e') && Fifo(peer, e', other + [f])
  {
  }

  lemma KeepInv(w: World, m: Move)
    requires Inv(w) && Can(w, m)
    ensures Inv(Do(w, m))
  {
    match m
    case HandleA => HandleAlong(w.a, w.b, w.toA, w.toB);
    case HandleB => HandleAlong(w.b, w.a, w.toB, w.toA);
    case ReadA => ReadAlong(w.a, w.b, w.toA);
    case ReadB => ReadAlong(w.b, w.a, w.toB);
    case FinishA => FinishAlong(w.a, w.b, w.toA);
    case FinishB => FinishAlong(w.b, w.a, w.toB);
    case HangupA =>
    case HangupB =>
    case AppA(f) => AppAlong(w.a, w.b, w.toB, f);
    case AppB(f) => AppAlong(w.b, w.a, w.toA, f);
  }

  lemma {:induction false} RunInv(w: World, moves: seq<Move>, t: World)
    requires Inv(w) && Reaches(w, moves, t)
    ensures Inv(t)
    decreases |moves|
  {
    if moves != [] {
      KeepInv(w, moves[0]);
      RunInv(Do(w, moves[0]), moves[1..], t);
    }
  }

  /** Only the participants have anything left to do. */
  ghost predicate Stuck(w: World) {
    forall m: Move :: Can(w, m) ==> m.App()
  }

  lemma StuckIsDone(w: World)
    requires Inv(w) && Stuck(w)
    ensures w.a.pc.Running? && w.b.pc.Running? && w.toA == [] && w.toB == []
  {
    assert !Can(w, HandleA) && !Can(w, HandleB) && !Can(w, ReadA) &&
      !Can(w, ReadB) && !Can(w, FinishA) && !Can(w, FinishB);
    assert w.toA == [] && w.toB == [];
    assert |w.b.sent| == |w.a.seen| + |FramesIn(w.a.inbox)| && |w.a.sent| == |w.b.seen| + |FramesIn(w.b.inbox)|;
    assert w.a.pc.Running? || w.a.inbox == [];
    assert w.b.pc.Running? || w.b.inbox == [];
  }

  /** At any time of any run, whoever is done knows the other's pid and secret and has
      its own half of the stream ids, and the participants' frames handed on, waiting
      or under way are exactly those sent, in order. */
  lemma HandshakeAgreement(w: World, moves: seq<Move>, t: World)
    requires Start(w) && Matching(w) && Reaches(w, moves, t)
    ensures t.a.pc.Ok() ==> Agreed(t.a, t.b)
    ensures t.b.pc.Ok() ==> Agreed(t.b, t.a)
    ensures t.a.pc.Ok() && t.b.pc.Ok() ==>
      && t.a.pc.offset == 0 && t.b.pc.offset == 0x7FFF_FFFF_FFFF_FFFF
      && t.a.delivered + FramesIn(t.a.inbox) + t.toA == t.b.app
      && t.b.delivered + FramesIn(t.b.inbox) + t.toB == t.a.app
  {
    RunInv(w, moves, t);
    if t.a.pc.Ok() && t.b.pc.Ok() {
      Early(t.a, t.b, t.toA);
      Early(t.b, t.a, t.toB);
    }
  }

  lemma Early(e: Endpoint, peer: Endpoint, under: seq<Frame>)
    requires Agreed(e, peer) && Agreed(peer, e) && Fifo(e, peer, under)
    ensures e.delivered + FramesIn(e.inbox) + under == peer.app
  {
    var opening := [peer.Hello(), peer.Me()];
    assert opening + (e.delivered + FramesIn(e.inbox) + under) == opening + peer.app;
    assert (opening + (e.delivered + FramesIn(e.inbox) + under))[2..] == (opening + peer.app)[2..];
  }

  /** A run that cannot go on has both sides done after exactly four handshake frames,
      and everything the participants sent handed on. */
  lemma HandshakeCompletes(w: World, moves: seq<Move>, t: World)
    requires Start(w) && Matching(w) && Reaches(w, moves, t) && Stuck(t)
    ensures Agreed(t.a, t.b) && Agreed(t.b, t.a)
    ensures (|t.a.sent| - |t.a.app|) + (|t.b.sent| - |t.b.app|) == 4
    ensures t.a.delivered + FramesIn(t.a.inbox) == t.b.app && t.b.delivered + FramesIn(t.b.inbox) == t.a.app
  {
    RunInv(w, moves, t);
    StuckIsDone(t);
    HandshakeAgreement(w, moves, t);
    assert t.a.delivered + FramesIn(t.a.inbox) + [] == t.a.delivered + FramesIn(t.a.inbox);
    assert t.b.delivered + FramesIn(t.b.inbox) + [] == t.b.delivered + FramesIn(t.b.inbox);
  }

  // ----- mismatching endpoints

  /** Neither side gets past waiting for a handshake it accepts. */
  ghost predicate Doomed(w: World) {
    && w.a.init && !w.b.init && !Matching(w)
    && (w.a.pc.Begin? || w.a.pc.AwaitHandshake? || w.a.pc.Failed?)
    && (w.b.pc.Begin? || w.b.pc.AwaitHandshake? || w.b.pc.Failed?)
    && (forall i :: 0 <= i < |w.b.inbox| ==> w.b.inbox[i] == Got(w.a.Hello()))
    && (forall i :: 0 <= i < |w.toB| ==> w.toB[i] == w.a.Hello())
    && (forall i :: 0 <= i < |w.a.inbox| ==> w.a.inbox[i].Got? ==> !w.a.inbox[i].frame.Handshake?)
    && (forall i :: 0 <= i < |w.toA| ==> !w.toA[i].Handshake?)
    // whoever still waits has something to wait for
    && (w.a.pc.Failed? || w.a.inbox != [] || w.toA != [] ==> w.b.pc.Failed?)
    && (w.hungA ==> w.a.pc.Failed? || w.a.inbox != [])
    && (w.a.pc.AwaitHandshake? && !w.b.pc.Failed? ==> w.b.inbox != [] || w.toB != [])
    && (w.a.pc.Begin? ==> w.b.inbox == [] && w.toB == [] && w.toA == [] && w.a.inbox == [] && !w.b.pc.Failed?)
    // what has been said
    && w.a.sent == (if w.a.pc.Begin? then [] else [w.a.Hello()])
    && w.b.sent == (if w.b.pc.Failed? then Refusal(w.b, w.a) else [])
  }

  /** What a debug build answers to the wrong magic number, or else to the wrong version. */
  function Refusal(e: Endpoint, peer: Endpoint): seq<Frame> {
    if !e.debug then []
    else [Raw(if peer.magic != e.magic then e.wrongNumber else e.wrongVersion), Shutdown]
  }

  lemma KeepDoomedA(w: World, m: Move)
    requires Doomed(w) && Can(w, m) && (m.HandleA? || m.ReadA? || m.HangupA?)
    ensures Doomed(Do(w, m))
  {
  }

  lemma KeepDoomedB(w: World, m: Move)
    requires Doomed(w) && Can(w, m) && (m.HandleB? || m.ReadB? || m.HangupB?)
    ensures Doomed(Do(w, m))
  {
  }

  lemma KeepDoomed(w: World, m: Move)
    requires Doomed(w) && Can(w, m)
    ensures Doomed(Do(w, m))
  {
    match m
    case HandleA | ReadA | HangupA => KeepDoomedA(w, m);
    case HandleB | ReadB | HangupB => KeepDoomedB(w, m);
    case _ =>
  }

  lemma {:induction false} RunDoomed(w: World, moves: seq<Move>, t: World)
    requires Doomed(w) && Reaches(w, moves, t)
    ensures Doomed(t)
    decreases |moves|
  {
    if moves != [] {
      KeepDoomed(w, moves[0]);
      RunDoomed(Do(w, moves[0]), moves[1..], t);
    }
  }

  /** With another magic number or version no run lets either side succeed, and every
      run that cannot go on has both failed. */
  lemma MismatchFails(w: World, moves: seq<Move>, t: World)
    requires Start(w) && !Matching(w) && Reaches(w, moves, t)
    ensures !t.a.pc.Ok() && !t.b.pc.Ok()
    ensures Stuck(t) ==> t.a.pc.Failed? && t.b.pc.Failed?
    ensures t.a.sent <= [Handshake(t.a.magic, t.a.version)]
    ensures t.b.pc.Failed? ==> t.b.sent == Refusal(t.b, t.a)
    ensures !t.b.pc.Failed? ==> t.b.sent == []
  {
    RunDoomed(w, moves, t);
    if Stuck(t) {
      assert !Can(t, HandleA) && !Can(t, HandleB) && !Can(t, ReadA) && !Can(t, ReadB) && !Can(t, HangupA);
    }
  }
}

