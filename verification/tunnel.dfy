/** The tunnel: one client ingress, and for every worker generation a link and a server session with its
    own egress. A link may drop, reorder and duplicate datagrams at will. */
module Tunnel {
  import opened Wrappers
  import opened Frames
  import opened Streams
  import I = TcpIngress
  import E = TcpEgress

  /** Where a worker's receiving forwarder is while it delivers a frame to the ingress. */
  datatype ForwarderPc = Receiving | Queueing(id: uint64, frame: Frame) | OverflowNotify(id: uint64) | OverflowClose(id: uint64)

  /** up is everything the client ever wrote to this link; what the server wrote is in its egress. */
  datatype Session = Session(egress: E.Egress, up: set<Bytes>, forwarder: ForwarderPc, deliveryFailed: bool)

  /** sessions[c] is at the other end of ingress.channels[c]. */
  datatype System = System(ingress: I.Ingress, sessions: seq<Session>)

  const Start := System(I.Empty, [])

  datatype Action =
    | NewSession(workerIndex: nat)
    | OnIngress(i: I.Action)
    | OnEgress(c: nat, e: E.Action)
    | Forward(c: nat, written: bool)
    | ServerReceives(c: nat, datagram: Bytes)
    | ClientReceives(c: nat, datagram: Bytes)
    | ClientQueues(c: nat, preferDone: bool)
    | ClientNotifies(c: nat, sent: bool)
    | ClientCloses(c: nat)

  function WithSession(s: System, c: nat, t: Session): System
    requires c < |s.sessions|
  {
    s.(sessions := s.sessions[c := t])
  }

  /** The client's receiving forwarder and TCPIngress.Deliver, up to the queueing of a data frame. */
  function Deliver(s: System, c: nat, datagram: Bytes): System
    requires c < |s.sessions|
  {
    var t := s.sessions[c];
    match ReadDatagram(datagram)
    case Err(_) => WithSession(s, c, t.(deliveryFailed := true))
    case Ok(f) =>
      if f.kind !in {DATAGRAM, STREAM_DATA, STREAM_CLOSE} then s
      else if f.kind == STREAM_DATA then
        if f.streamID in s.ingress.open then WithSession(s, c, t.(forwarder := Queueing(f.streamID, f))) else s
      else if f.kind == STREAM_CLOSE then
        s.(ingress := I.CloseStream(s.ingress, f.streamID))
      else WithSession(s, c, t.(deliveryFailed := true))
  }

  function ForwarderStep(s: System, c: nat, a: Action): Option<System>
    requires c < |s.sessions| && (a.ClientQueues? || a.ClientNotifies? || a.ClientCloses?)
  {
    var t := s.sessions[c];
    match a
    case ClientQueues(_, preferDone) =>
      if !t.forwarder.Queueing? || !I.Known(s.ingress, t.forwarder.id) then None else
      var id, f := t.forwarder.id, t.forwarder.frame;
      var overflow := I.QueueOutcome(I.Stream(s.ingress, id), preferDone).Overflow?;
      Some(WithSession(s.(ingress := I.QueueInbound(s.ingress, id, f, preferDone)), c,
                       t.(forwarder := if overflow then OverflowNotify(id) else Receiving)))
    case ClientNotifies(_, sent) =>
      if !t.forwarder.OverflowNotify? || !I.Known(s.ingress, t.forwarder.id) then None else
      var id := t.forwarder.id;
      var channel := I.Stream(s.ingress, id).channel;
      if channel >= |s.ingress.channels| || (sent && !I.HasRoom(s.ingress, channel)) then None
      else
        Some(WithSession(s.(ingress := I.NotifyRemoteClose(s.ingress, id, sent)), c, t.(forwarder := OverflowClose(id))))
    case ClientCloses(_) =>
      if !t.forwarder.OverflowClose? then None
      else Some(WithSession(s.(ingress := I.CloseStream(s.ingress, t.forwarder.id)), c, t.(forwarder := Receiving)))
  }

  /** The sending forwarder takes the head of the channel; a failed write loses it. */
  function ForwardStep(s: System, c: nat, written: bool): Option<System>
    requires c < |s.sessions|
  {
    if c >= |s.ingress.channels| || s.ingress.channels[c].queue == [] then None else
    var i := I.Pop(s.ingress, c);
    match MarshalBinary(s.ingress.channels[c].queue[0])
    case Ok(b) =>
      Some(WithSession(s.(ingress := i), c,
                       if written then s.sessions[c].(up := s.sessions[c].up + {b}) else s.sessions[c]))
    case Err(_) => Some(s.(ingress := i))
  }

  function Step(s: System, a: Action): Option<System> {
    match a
    case NewSession(w) =>
      Some(System(s.ingress.(channels := s.ingress.channels + [I.Channel(w, [])]),
                  s.sessions + [Session(E.Empty, {}, Receiving, false)]))
    case OnIngress(i) =>
      if i.NewChannel? || I.Step(s.ingress, i).None? then None else Some(s.(ingress := I.Step(s.ingress, i).value))
    case OnEgress(c, e) =>
      if c >= |s.sessions| || E.Step(s.sessions[c].egress, e).None? then None
      else Some(WithSession(s, c, s.sessions[c].(egress := E.Step(s.sessions[c].egress, e).value)))
    case Forward(c, written) => if c < |s.sessions| then ForwardStep(s, c, written) else None
    case ServerReceives(c, b) =>
      if c >= |s.sessions| || b !in s.sessions[c].up || s.sessions[c].egress.fault.Some? ||
         s.sessions[c].egress.handling.Some? then None
      else Some(WithSession(s, c, s.sessions[c].(egress := E.ReceiveFrame(s.sessions[c].egress, b))))
    case ClientReceives(c, b) =>
      if c >= |s.sessions| || b !in s.sessions[c].egress.sent || s.sessions[c].deliveryFailed ||
         !s.sessions[c].forwarder.Receiving? then None
      else Some(Deliver(s, c, b))
    case ClientQueues(c, _) => if c < |s.sessions| then ForwarderStep(s, c, a) else None
    case ClientNotifies(c, _) => if c < |s.sessions| then ForwarderStep(s, c, a) else None
    case ClientCloses(c) => if c < |s.sessions| then ForwarderStep(s, c, a) else None
  }

  /** The state after a run, if every action of it was possible. */
  function Execute(s: System, actions: seq<Action>): Option<System>
    decreases |actions|
  {
    if actions == [] then Some(s) else
    match Step(s, actions[0])
    case None => None
    case Some(s') => Execute(s', actions[1..])
  }

  // ----- what every reachable state keeps

  /** The chunks framed from the local connection of a stream id. */
  function LocalChunks(i: I.Ingress, id: nat): seq<Bytes> {
    if I.Known(i, id) then I.Stream(i, id).sender.chunks else []
  }

  /** Every datagram on the way up is a frame of a stream of this very channel, with that stream's bytes. */
  predicate UpLinkOk(s: System, c: nat)
    requires c < |s.sessions|
  {
    forall b :: b in s.sessions[c].up ==> ReadDatagram(b).Ok? && I.SentOn(s.ingress, c, ReadDatagram(b).value)
  }

  predicate UpstreamOk(s: System, c: nat, k: nat)
    requires c < |s.sessions| && k < |s.sessions[c].egress.streams|
  {
    var st := s.sessions[c].egress.streams[k];
    I.Known(s.ingress, st.id) && I.Stream(s.ingress, st.id).channel == c &&
    Follows(st.receiver, E.Running(st.writer), st.id, LocalChunks(s.ingress, st.id))
  }

  /** A data frame between lookup and queueing still belongs to the stream it was looked up for. */
  predicate HandlingOk(s: System, c: nat)
    requires c < |s.sessions|
  {
    var e := s.sessions[c].egress;
    e.handling.Some? ==>
      var (k, f) := e.handling.value;
      k < |e.streams| && f.kind == STREAM_DATA && FrameOf(f, e.streams[k].id, LocalChunks(s.ingress, e.streams[k].id))
  }

  predicate SessionOk(s: System, c: nat)
    requires c < |s.sessions|
  {
    && UpLinkOk(s, c) && HandlingOk(s, c)
    && (forall k :: 0 <= k < |s.sessions[c].egress.streams| ==> UpstreamOk(s, c, k))
    && !s.sessions[c].deliveryFailed
    && (s.sessions[c].egress.fault.Some? ==> s.sessions[c].egress.fault.value.AlreadyOpen?)
  }

  ghost predicate Inv(s: System) {
    && I.Inv(s.ingress)
    && |s.sessions| == |s.ingress.channels|
    && (forall c :: 0 <= c < |s.sessions| ==> E.Inv(s.sessions[c].egress) && SessionOk(s, c))
  }

  ghost predicate Extends(s: System, s': System) {
    && I.Extends(s.ingress, s'.ingress)
    && |s.sessions| <= |s'.sessions|
    && (forall c :: 0 <= c < |s.sessions| ==> E.Extends(s.sessions[c].egress, s'.sessions[c].egress))
  }

  lemma LocalChunksGrow(i: I.Ingress, i': I.Ingress, id: nat)
    requires I.Extends(i, i')
    ensures LocalChunks(i, id) <= LocalChunks(i', id)
  {
  }

  /** A session that did not change is still right when the ingress moved on. */
  lemma SessionCarries(s: System, s': System, c: nat)
    requires I.Extends(s.ingress, s'.ingress) && c < |s.sessions| && c < |s'.sessions|
    requires SessionOk(s, c)
    requires s'.sessions[c].egress == s.sessions[c].egress && s'.sessions[c].up == s.sessions[c].up
    requires s'.sessions[c].deliveryFailed == s.sessions[c].deliveryFailed
    ensures SessionOk(s', c)
  {
    forall b | b in s'.sessions[c].up ensures ReadDatagram(b).Ok? && I.SentOn(s'.ingress, c, ReadDatagram(b).value) {
      I.SentOnExtends(s.ingress, s'.ingress, c, ReadDatagram(b).value);
    }
    var e := s.sessions[c].egress;
    forall k | 0 <= k < |e.streams| ensures UpstreamOk(s', c, k) {
      assert UpstreamOk(s, c, k);
      UpstreamCarries(s, s', c, k);
    }
    if e.handling.Some? {
      LocalChunksGrow(s.ingress, s'.ingress, e.streams[e.handling.value.0].id);
    }
  }

  lemma UpstreamCarries(s: System, s': System, c: nat, k: nat)
    requires I.Extends(s.ingress, s'.ingress) && c < |s.sessions| && c < |s'.sessions|
    requires k < |s.sessions[c].egress.streams| && k < |s'.sessions[c].egress.streams|
    requires UpstreamOk(s, c, k) && s'.sessions[c].egress.streams[k].id == s.sessions[c].egress.streams[k].id
    requires ReceiverStep(s.sessions[c].egress.streams[k].receiver, E.Running(s.sessions[c].egress.streams[k].writer),
                          s'.sessions[c].egress.streams[k].receiver, E.Running(s'.sessions[c].egress.streams[k].writer))
    ensures UpstreamOk(s', c, k)
  {
    var st, st' := s.sessions[c].egress.streams[k], s'.sessions[c].egress.streams[k];
    LocalChunksGrow(s.ingress, s'.ingress, st.id);
    StepFollows(st.receiver, E.Running(st.writer), st'.receiver, E.Running(st'.writer), st.id, LocalChunks(s.ingress, st.id));
    FollowsGrows(st'.receiver, E.Running(st'.writer), st.id, LocalChunks(s.ingress, st.id), LocalChunks(s'.ingress, st.id));
  }

  /** A step of the ingress alone. */
  lemma IngressMoves(s: System, s': System, c: nat)
    requires Inv(s) && c <= |s.sessions| == |s'.sessions|
    requires I.Inv(s'.ingress) && I.Extends(s.ingress, s'.ingress) && |s'.ingress.channels| == |s.ingress.channels|
    requires forall d :: 0 <= d < |s.sessions| && d != c ==> s'.sessions[d] == s.sessions[d]
    requires c < |s.sessions| ==> s'.sessions[c] == s.sessions[c].(forwarder := s'.sessions[c].forwarder)
    ensures Inv(s') && Extends(s, s')
  {
    forall d | 0 <= d < |s'.sessions| ensures E.Inv(s'.sessions[d].egress) && SessionOk(s', d) {
      SessionCarries(s, s', d);
    }
  }

  lemma NewSessionKeeps(s: System, w: nat)
    requires Inv(s)
    ensures Inv(Step(s, NewSession(w)).value) && Extends(s, Step(s, NewSession(w)).value)
  {
    var s' := Step(s, NewSession(w)).value;
    I.StepKeeps(s.ingress, I.NewChannel(w));
    forall d | 0 <= d < |s'.sessions| ensures E.Inv(s'.sessions[d].egress) && SessionOk(s', d) {
      if d < |s.sessions| {
        SessionCarries(s, s', d);
      }
    }
  }

  lemma IngressStepKeeps(s: System, a: I.Action)
    requires Inv(s) && Step(s, OnIngress(a)).Some?
    ensures Inv(Step(s, OnIngress(a)).value) && Extends(s, Step(s, OnIngress(a)).value)
  {
    I.StepKeeps(s.ingress, a);
    I.StepKeepsChannels(s.ingress, a);
    IngressMoves(s, Step(s, OnIngress(a)).value, |s.sessions|);
  }

  /** One egress moved and the ingress did not: only that session needs a look. */
  lemma EgressMoves(s: System, c: nat, e': E.Egress)
    requires Inv(s) && c < |s.sessions|
    requires E.Inv(e') && E.Extends(s.sessions[c].egress, e')
    requires SessionOk(WithSession(s, c, s.sessions[c].(egress := e')), c)
    ensures var s' := WithSession(s, c, s.sessions[c].(egress := e')); Inv(s') && Extends(s, s')
  {
    var s' := WithSession(s, c, s.sessions[c].(egress := e'));
    forall d | 0 <= d < |s'.sessions| ensures E.Inv(s'.sessions[d].egress) && SessionOk(s', d) {
      if d != c {
        SessionCarries(s, s', d);
      }
    }
  }

  lemma StreamTurns(s: System, c: nat, a: E.Action, k: nat)
    requires Inv(s) && Step(s, OnEgress(c, a)).Some? && k < |s.sessions[c].egress.streams|
    requires k < |E.Step(s.sessions[c].egress, a).value.streams|
    ensures UpstreamOk(Step(s, OnEgress(c, a)).value, c, k)
  {
    var e, s' := s.sessions[c].egress, Step(s, OnEgress(c, a)).value;
    assert SessionOk(s, c) && UpstreamOk(s, c, k);
    E.StepKeeps(e, a);
    if a.Queue? {
      E.QueueFeedsReceiver(e, a.preferDone, k);
    } else {
      E.StepTurnsReceivers(e, a, k);
      I.Unchanged(s.ingress);
      UpstreamCarries(s, s', c, k);
    }
  }

  lemma EgressStepKeeps(s: System, c: nat, a: E.Action)
    requires Inv(s) && Step(s, OnEgress(c, a)).Some?
    ensures Inv(Step(s, OnEgress(c, a)).value) && Extends(s, Step(s, OnEgress(c, a)).value)
  {
    var e := s.sessions[c].egress;
    var e' := E.Step(e, a).value;
    var s' := Step(s, OnEgress(c, a)).value;
    assert SessionOk(s, c);
    E.StepKeeps(e, a);
    E.StepFrame(e, a);
    forall k | 0 <= k < |e'.streams| ensures UpstreamOk(s', c, k) {
      StreamTurns(s, c, a, k);
    }
    assert HandlingOk(s', c);
    I.Unchanged(s.ingress);
    EgressMoves(s, c, e');
  }

  lemma ServerReceivesKeeps(s: System, c: nat, b: Bytes)
    requires Inv(s) && Step(s, ServerReceives(c, b)).Some?
    ensures Inv(Step(s, ServerReceives(c, b)).value) && Extends(s, Step(s, ServerReceives(c, b)).value)
  {
    var e := s.sessions[c].egress;
    var e' := E.ReceiveFrame(e, b);
    var s' := Step(s, ServerReceives(c, b)).value;
    var f := ReadDatagram(b).value;
    assert SessionOk(s, c) && I.SentOn(s.ingress, c, f);
    E.ReceiveKeeps(e, b);
    E.ReceiveFrameFrame(e, b);
    forall k | 0 <= k < |e'.streams| ensures UpstreamOk(s', c, k) {
      if k < |e.streams| {
        assert UpstreamOk(s, c, k);
      }
    }
    assert HandlingOk(s', c);
    I.Unchanged(s.ingress);
    EgressMoves(s, c, e');
  }

  lemma ForwardKeeps(s: System, c: nat, written: bool)
    requires Inv(s) && Step(s, Forward(c, written)).Some?
    ensures Inv(Step(s, Forward(c, written)).value) && Extends(s, Step(s, Forward(c, written)).value)
  {
    var s' := Step(s, Forward(c, written)).value;
    var f := s.ingress.channels[c].queue[0];
    I.PopKeeps(s.ingress, c);
    LoopFramesArrive(f);
    var m := s.(ingress := I.Pop(s.ingress, c));
    IngressMoves(s, m, |s.sessions|);
    forall d | 0 <= d < |s'.sessions| ensures E.Inv(s'.sessions[d].egress) && SessionOk(s', d) {
      assert SessionOk(m, d);
      if d == c && written {
        UpLinkGrows(m, s', c, f);
      } else {
        I.Unchanged(m.ingress);
        SessionCarries(m, s', d);
      }
    }
  }

  lemma UpLinkGrows(m: System, s': System, c: nat, f: Frame)
    requires c < |m.sessions| && SessionOk(m, c) && LoopFrame(f) && ReadDatagram(Wire(f)) == Ok(f) && I.SentOn(m.ingress, c, f)
    requires s' == WithSession(m, c, m.sessions[c].(up := m.sessions[c].up + {Wire(f)}))
    ensures SessionOk(s', c)
  {
    forall k | 0 <= k < |s'.sessions[c].egress.streams| ensures UpstreamOk(s', c, k) {
      assert UpstreamOk(m, c, k);
    }
  }

  lemma DeliverKeeps(s: System, c: nat, b: Bytes)
    requires Inv(s) && Step(s, ClientReceives(c, b)).Some?
    ensures Inv(Step(s, ClientReceives(c, b)).value) && Extends(s, Step(s, ClientReceives(c, b)).value)
  {
    var s' := Step(s, ClientReceives(c, b)).value;
    assert E.SentKind(s.sessions[c].egress, b);
    var f := ReadDatagram(b).value;
    I.CloseKeeps(s.ingress, f.streamID);
    I.Unchanged(s.ingress);
    IngressMoves(s, s', c);
  }

  lemma ForwarderKeeps(s: System, c: nat, a: Action)
    requires Inv(s) && c < |s.sessions| && (a.ClientQueues? || a.ClientNotifies? || a.ClientCloses?)
    requires ForwarderStep(s, c, a).Some?
    ensures Inv(ForwarderStep(s, c, a).value) && Extends(s, ForwarderStep(s, c, a).value)
  {
    var s' := ForwarderStep(s, c, a).value;
    var t := s.sessions[c].forwarder;
    match a
    case ClientQueues(_, preferDone) =>
      I.QueueKeeps(s.ingress, t.id, t.frame, preferDone);
      IngressMoves(s, s', c);
    case ClientNotifies(_, sent) =>
      I.NotifyKeeps(s.ingress, t.id, sent);
      IngressMoves(s, s', c);
    case ClientCloses(_) =>
      I.CloseKeeps(s.ingress, t.id);
      IngressMoves(s, s', c);
  }

  lemma StepKeeps(s: System, a: Action)
    requires Inv(s) && Step(s, a).Some?
    ensures Inv(Step(s, a).value) && Extends(s, Step(s, a).value)
  {
    match a
    case NewSession(w) => NewSessionKeeps(s, w);
    case OnIngress(i) => IngressStepKeeps(s, i);
    case OnEgress(c, e) => EgressStepKeeps(s, c, e);
    case Forward(c, written) => ForwardKeeps(s, c, written);
    case ServerReceives(c, b) => ServerReceivesKeeps(s, c, b);
    case ClientReceives(c, b) => DeliverKeeps(s, c, b);
    case ClientQueues(c, _) => ForwarderKeeps(s, c, a);
    case ClientNotifies(c, _) => ForwarderKeeps(s, c, a);
    case ClientCloses(c) => ForwarderKeeps(s, c, a);
  }

  lemma StartOk()
    ensures Inv(Start)
  {
  }

  lemma ExtendsTransitive(a: System, b: System, c: System)
    requires Extends(a, b) && Extends(b, c)
    ensures Extends(a, c)
  {
    I.ExtendsTransitive(a.ingress, b.ingress, c.ingress);
    forall d | 0 <= d < |a.sessions| ensures E.Extends(a.sessions[d].egress, c.sessions[d].egress) {
      E.ExtendsTransitive(a.sessions[d].egress, b.sessions[d].egress, c.sessions[d].egress);
    }
  }

  lemma Unchanged(s: System)
    requires Inv(s)
    ensures Extends(s, s)
  {
    I.Unchanged(s.ingress);
  }

  lemma {:induction false} RunKeeps(s: System, actions: seq<Action>)
    requires Inv(s) && Execute(s, actions).Some?
    ensures Inv(Execute(s, actions).value) && Extends(s, Execute(s, actions).value)
    decreases |actions|
  {
    if actions == [] {
      Unchanged(s);
    } else {
      var s1 := Step(s, actions[0]).value;
      StepKeeps(s, actions[0]);
      RunKeeps(s1, actions[1..]);
      ExtendsTransitive(s, s1, Execute(s1, actions[1..]).value);
    }
  }

  // ----- main results

  /** In every run, whatever the links drop, reorder or duplicate, the bytes written to an upstream connection
      are a prefix of the bytes read from the local connection with its stream id. */
  lemma UpstreamGetsPrefix(actions: seq<Action>, c: nat, k: nat)
    requires Execute(Start, actions).Some?
    requires c < |Execute(Start, actions).value.sessions|
    requires k < |Execute(Start, actions).value.sessions[c].egress.streams|
    ensures var s := Execute(Start, actions).value;
            var up := s.sessions[c].egress.streams[k];
            I.Known(s.ingress, up.id) && up.receiver.produced <= I.Stream(s.ingress, up.id).sender.consumed
  {
    StartOk();
    RunKeeps(Start, actions);
    var s := Execute(Start, actions).value;
    var up := s.sessions[c].egress.streams[k];
    assert SessionOk(s, c) && UpstreamOk(s, c, k);
    var local := I.Stream(s.ingress, up.id);
    assert I.StreamOk(s.ingress, up.id);
    FollowsIsPrefix(up.receiver, E.Running(up.writer), up.id, local.sender, I.Framing(local.reader));
  }

  /** No run makes either side report a frame of a kind it cannot handle, or one it cannot decode; and a server
      session whose link hands over no open frame twice never fails on a frame at all. */
  lemma FramesAreAlwaysHandled(actions: seq<Action>, c: nat)
    requires Execute(Start, actions).Some? && c < |Execute(Start, actions).value.sessions|
    ensures var t := Execute(Start, actions).value.sessions[c];
            && !t.deliveryFailed
            && t.egress.fault in {None, Some(E.AlreadyOpen)}
            && (!E.Repeats(t.egress.openings) ==> t.egress.fault == None)
  {
    StartOk();
    RunKeeps(Start, actions);
    assert SessionOk(Execute(Start, actions).value, c);
  }

  /** Each side writes at most one close frame for a stream, and the server none for a stream whose close
      came from the client or from the end of the session. */
  lemma ClosesAreBounded(actions: seq<Action>)
    requires Execute(Start, actions).Some?
    ensures var s := Execute(Start, actions).value;
            && (forall id :: I.Known(s.ingress, id) ==> I.Stream(s.ingress, id).closes <= 1)
            && (forall c, k :: 0 <= c < |s.sessions| && 0 <= k < |s.sessions[c].egress.streams| ==>
                  var up := s.sessions[c].egress.streams[k]; up.closes <= (if up.quiet then 0 else 1))
  {
    StartOk();
    RunKeeps(Start, actions);
    var s := Execute(Start, actions).value;
    forall id | I.Known(s.ingress, id) ensures I.Stream(s.ingress, id).closes <= 1 {
      assert I.StreamOk(s.ingress, id);
    }
    forall c, k | 0 <= c < |s.sessions| && 0 <= k < |s.sessions[c].egress.streams|
      ensures var up := s.sessions[c].egress.streams[k]; up.closes <= (if up.quiet then 0 else 1)
    {
      assert E.Inv(s.sessions[c].egress) && E.StreamOk(s.sessions[c].egress, k);
    }
  }

  /** However a run goes on, a client stream that was closed never enters the map again, a new one gets an id
      above all earlier ones, and a closed upstream stream stays closed with its close count final. */
  lemma ClosedForGood(actions: seq<Action>, more: seq<Action>)
    requires Execute(Start, actions).Some? && Execute(Execute(Start, actions).value, more).Some?
    ensures var s := Execute(Start, actions).value;
            var s' := Execute(s, more).value;
            && |s.ingress.streams| <= |s'.ingress.streams|
            && (forall id :: I.Known(s.ingress, id) && id !in s.ingress.open ==> id !in s'.ingress.open)
            && |s.sessions| <= |s'.sessions|
            && (forall c :: 0 <= c < |s.sessions| ==> E.Extends(s.sessions[c].egress, s'.sessions[c].egress))
  {
    StartOk();
    RunKeeps(Start, actions);
    var s := Execute(Start, actions).value;
    RunKeeps(s, more);
    forall id | I.Known(s.ingress, id) && id !in s.ingress.open ensures id !in Execute(s, more).value.ingress.open {
      assert I.StreamOk(s.ingress, id);
    }
  }
}
