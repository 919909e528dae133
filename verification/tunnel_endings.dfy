/** How the loops of a stream end: what each failure ends for good, and that no ended loop leaves its stream open. */
module TunnelEndings {
  import opened Wrappers
  import opened Frames
  import opened Streams
  import opened Tunnel
  import opened TunnelNotices
  import I = TcpIngress
  import E = TcpEgress

  // ----- failures end loops

  /** The reader loop may still frame what it reads. */
  predicate ClientReads(r: I.ReaderPc) { r.ReaderIdle? || r.ReadLocal? || (r.SendData? && !r.failed) }

  predicate ServerReads(r: E.ReaderPc) { r.ReaderIdle? || r.ReadUpstream? || (r.WriteBack? && !r.failed) }

  /** From an ended reader loop nothing more is framed, and from an ended writer loop nothing more is written. */
  predicate ClientEnds(st: I.LocalStream, st': I.LocalStream) {
    && (!ClientReads(st.reader) ==> !ClientReads(st'.reader) && st'.sender.chunks == st.sender.chunks)
    && (!I.Running(st.writer) ==> !I.Running(st'.writer) && st'.receiver.produced == st.receiver.produced)
  }

  predicate ServerEnds(st: E.UpstreamStream, st': E.UpstreamStream) {
    && (!ServerReads(st.reader) ==> !ServerReads(st'.reader) && st'.sender.chunks == st.sender.chunks)
    && (!E.Running(st.writer) ==> !E.Running(st'.writer) && st'.receiver.produced == st.receiver.produced)
  }

  ghost predicate LoopsStayEnded(s: System, s': System) {
    && I.Extends(s.ingress, s'.ingress)
    && (forall id :: I.Known(s.ingress, id) ==> ClientEnds(I.Stream(s.ingress, id), I.Stream(s'.ingress, id)))
    && |s.sessions| <= |s'.sessions|
    && (forall c :: 0 <= c < |s.sessions| ==> EgressStaysEnded(s.sessions[c].egress, s'.sessions[c].egress))
  }

  ghost predicate EgressStaysEnded(e: E.Egress, e': E.Egress) {
    |e.streams| <= |e'.streams| && forall k :: 0 <= k < |e.streams| ==> ServerEnds(e.streams[k], e'.streams[k])
  }

  lemma IngressStepEnds(i: I.Ingress, a: I.Action, id: nat)
    requires I.Inv(i) && I.Step(i, a).Some? && I.Known(i, id) && I.Known(I.Step(i, a).value, id)
    ensures ClientEnds(I.Stream(i, id), I.Stream(I.Step(i, a).value, id))
  {
    match a
    case OnReader(k, r) => ReaderStepEnds(i, k, r, id);
    case OnWriter(k, w) => WriterStepEnds(i, k, w, id);
    case _ =>
  }

  lemma ReaderStepEnds(i: I.Ingress, k: uint64, r: I.ReaderAction, id: nat)
    requires I.Inv(i) && I.Known(i, k) && I.Known(i, id) && I.ReaderStep(i, k, r).Some?
    ensures I.Known(I.ReaderStep(i, k, r).value, id) && ClientEnds(I.Stream(i, id), I.Stream(I.ReaderStep(i, k, r).value, id))
  {
    var st := I.Stream(i, k);
    match r
    case ReaderNotifies(sent) =>
      NoticeFramesNothing(I.With(i, k, st.(reader := I.ReaderClose)), k, sent, id);
    case ReaderCloses =>
      CloseFramesNothing(I.With(i, k, st.(reader := I.ReaderDone)), k, id);
    case _ =>
  }

  lemma WriterStepEnds(i: I.Ingress, k: uint64, w: I.WriterAction, id: nat)
    requires I.Inv(i) && I.Known(i, k) && I.Known(i, id) && I.WriterStep(i, k, w).Some?
    ensures I.Known(I.WriterStep(i, k, w).value, id) && ClientEnds(I.Stream(i, id), I.Stream(I.WriterStep(i, k, w).value, id))
  {
  }

  lemma StreamStepEnds(e: E.Egress, k: nat, s: E.StreamAction, j: nat)
    requires E.Inv(e) && k < |e.streams| && j < |e.streams| && E.StreamStep(e, k, s).Some?
    ensures |E.StreamStep(e, k, s).value.streams| == |e.streams|
    ensures ServerEnds(e.streams[j], E.StreamStep(e, k, s).value.streams[j])
  {
    assert E.StreamOk(e, k);
    if s.RunCloses? {
      ClosingEnds(E.With(e, k, e.streams[k].(dial := E.RunDone)), e.streams[k].id, true, s.written, j);
    } else if s.Write? || s.WriterExits? {
      WriterTurnEnds(e, k, s, j);
    } else {
      ReaderTurnEnds(e, k, s, j);
    }
  }

  lemma ClosingEnds(e: E.Egress, id: uint64, notify: bool, written: bool, j: nat)
    requires j < |e.streams|
    ensures |E.CloseStream(e, id, notify, written).streams| == |e.streams|
    ensures ServerEnds(e.streams[j], E.CloseStream(e, id, notify, written).streams[j])
  {
  }

  lemma WriterTurnEnds(e: E.Egress, k: nat, s: E.StreamAction, j: nat)
    requires k < |e.streams| && j < |e.streams| && E.StreamStep(e, k, s).Some? && (s.Write? || s.WriterExits?)
    ensures |E.StreamStep(e, k, s).value.streams| == |e.streams|
    ensures ServerEnds(e.streams[j], E.StreamStep(e, k, s).value.streams[j])
  {
  }

  lemma ReaderTurnEnds(e: E.Egress, k: nat, s: E.StreamAction, j: nat)
    requires k < |e.streams| && E.StreamOk(e, k) && j < |e.streams| && E.StreamStep(e, k, s).Some?
    requires s.Read? || s.WriteFrame? || s.Dial? || s.RunReturns?
    ensures |E.StreamStep(e, k, s).value.streams| == |e.streams|
    ensures ServerEnds(e.streams[j], E.StreamStep(e, k, s).value.streams[j])
  {
  }

  lemma EgressStepEnds(e: E.Egress, a: E.Action)
    requires E.Inv(e) && E.Step(e, a).Some?
    ensures EgressStaysEnded(e, E.Step(e, a).value)
  {
    E.StepFrame(e, a);
    forall j | 0 <= j < |e.streams| ensures ServerEnds(e.streams[j], E.Step(e, a).value.streams[j]) {
      match a
      case OnStream(k, s) => StreamStepEnds(e, k, s, j);
      case AsyncClose(id, written) => ClosingEnds(e.(asyncCloses := e.asyncCloses - multiset{id}), id, true, written, j);
      case CloseCollected(id) => ClosingEnds(e.(closing := e.closing - {id}), id, false, false, j);
      case Queue(preferDone) => QueueingEnds(e, preferDone, j);
      case _ =>
    }
  }

  lemma QueueingEnds(e: E.Egress, preferDone: bool, j: nat)
    requires E.QueueInbound(e, preferDone).Some? && j < |e.streams|
    ensures |E.QueueInbound(e, preferDone).value.streams| == |e.streams|
    ensures ServerEnds(e.streams[j], E.QueueInbound(e, preferDone).value.streams[j])
  {
  }

  lemma ReceivingEnds(e: E.Egress, b: Bytes)
    requires E.Inv(e)
    ensures EgressStaysEnded(e, E.ReceiveFrame(e, b))
  {
    if ReadDatagram(b).Ok? && ReadDatagram(b).value.kind == STREAM_CLOSE {
      forall j | 0 <= j < |e.streams| ensures ServerEnds(e.streams[j], E.ReceiveFrame(e, b).streams[j]) {
        ClosingEnds(e, ReadDatagram(b).value.streamID, false, false, j);
      }
    }
  }

  lemma ForwardersEnd(s: System, a: Action, id: nat)
    requires Inv(s) && Step(s, a).Some? && !a.OnIngress? && I.Known(s.ingress, id) && I.Known(Step(s, a).value.ingress, id)
    ensures ClientEnds(I.Stream(s.ingress, id), I.Stream(Step(s, a).value.ingress, id))
  {
    StepKeeps(s, a);
    ForwardersRest(s, a, id);
    ForwardersFrameNothing(s, a, id);
  }

  lemma ForwardersFrameNothing(s: System, a: Action, id: nat)
    requires Inv(s) && Step(s, a).Some? && !a.OnIngress? && I.Known(s.ingress, id) && I.Known(Step(s, a).value.ingress, id)
    ensures var st, st' := I.Stream(s.ingress, id), I.Stream(Step(s, a).value.ingress, id);
            st'.sender == st.sender && st'.receiver.produced == st.receiver.produced
  {
    match a
    case ClientNotifies(c, sent) => NoticeFramesNothing(s.ingress, s.sessions[c].forwarder.id, sent, id);
    case ClientQueues(c, preferDone) => QueueFramesNothing(s.ingress, s.sessions[c].forwarder.id, s.sessions[c].forwarder.frame, preferDone, id);
    case ClientCloses(c) => CloseFramesNothing(s.ingress, s.sessions[c].forwarder.id, id);
    case ClientReceives(c, b) =>
      if ReadDatagram(b).Ok? {
        CloseFramesNothing(s.ingress, ReadDatagram(b).value.streamID, id);
      }
    case _ =>
  }

  lemma CloseFramesNothing(i: I.Ingress, k: nat, id: nat)
    requires I.Known(i, id)
    ensures I.Known(I.CloseStream(i, k), id)
    ensures var st, st' := I.Stream(i, id), I.Stream(I.CloseStream(i, k), id);
            st'.sender == st.sender && st'.receiver.produced == st.receiver.produced && st'.reader == st.reader && st'.writer == st.writer
  {
  }

  lemma NoticeFramesNothing(i: I.Ingress, k: uint64, sent: bool, id: nat)
    requires I.Known(i, id) && I.Known(i, k) && I.Stream(i, k).channel < |i.channels|
    ensures I.Known(I.NotifyRemoteClose(i, k, sent), id)
    ensures var st, st' := I.Stream(i, id), I.Stream(I.NotifyRemoteClose(i, k, sent), id);
            st'.sender == st.sender && st'.receiver.produced == st.receiver.produced && st'.reader == st.reader && st'.writer == st.writer
  {
  }

  lemma QueueFramesNothing(i: I.Ingress, k: nat, f: Frame, preferDone: bool, id: nat)
    requires I.Known(i, id) && I.Known(i, k)
    ensures I.Known(I.QueueInbound(i, k, f, preferDone), id)
    ensures var st, st' := I.Stream(i, id), I.Stream(I.QueueInbound(i, k, f, preferDone), id);
            st'.sender == st.sender && st'.receiver.produced == st.receiver.produced && st'.reader == st.reader && st'.writer == st.writer
  {
  }

  lemma StepEnds(s: System, a: Action)
    requires Inv(s) && Step(s, a).Some?
    ensures LoopsStayEnded(s, Step(s, a).value)
  {
    var s' := Step(s, a).value;
    StepKeeps(s, a);
    forall id | I.Known(s.ingress, id) ensures ClientEnds(I.Stream(s.ingress, id), I.Stream(s'.ingress, id)) {
      if a.OnIngress? {
        IngressStepEnds(s.ingress, a.i, id);
      } else {
        ForwardersEnd(s, a, id);
      }
    }
    forall c | 0 <= c < |s.sessions| ensures EgressStaysEnded(s.sessions[c].egress, s'.sessions[c].egress) {
      if a.OnEgress? && a.c == c {
        EgressStepEnds(s.sessions[c].egress, a.e);
      } else if a.ServerReceives? && a.c == c {
        ReceivingEnds(s.sessions[c].egress, a.datagram);
      } else {
        OtherEgress(s, a, c);
      }
    }
  }

  lemma EndsTransitive(a: System, b: System, c: System)
    requires LoopsStayEnded(a, b) && LoopsStayEnded(b, c)
    ensures LoopsStayEnded(a, c)
  {
    I.ExtendsTransitive(a.ingress, b.ingress, c.ingress);
    forall id | I.Known(a.ingress, id) ensures ClientEnds(I.Stream(a.ingress, id), I.Stream(c.ingress, id)) {
      assert ClientEnds(I.Stream(b.ingress, id), I.Stream(c.ingress, id));
    }
    forall d | 0 <= d < |a.sessions| ensures EgressStaysEnded(a.sessions[d].egress, c.sessions[d].egress) {
      assert EgressStaysEnded(a.sessions[d].egress, b.sessions[d].egress) && EgressStaysEnded(b.sessions[d].egress, c.sessions[d].egress);
    }
  }

  lemma {:induction false} RunEnds(s: System, actions: seq<Action>)
    requires Inv(s) && Execute(s, actions).Some?
    ensures LoopsStayEnded(s, Execute(s, actions).value)
    decreases |actions|
  {
    if actions == [] {
      I.Unchanged(s.ingress);
    } else {
      var s1 := Step(s, actions[0]).value;
      StepEnds(s, actions[0]);
      StepKeeps(s, actions[0]);
      RunEnds(s1, actions[1..]);
      EndsTransitive(s, s1, Execute(s1, actions[1..]).value);
    }
  }

  /** What ends a client loop: a failed read or send, and a failed write or a frame out of order. */
  predicate FailsClientReader(a: Action, id: uint64) {
    a.OnIngress? && match a.i
                    case OnReader(k, Read(_, failed)) => k == id && failed
                    case OnReader(k, Send(sent)) => k == id && !sent
                    case _ => false
  }

  predicate FailsWriter(r: Receiver, n: nat, failed: bool) {
    r.inbound != [] && r.inbound[0].kind == STREAM_DATA && (failed || r.inbound[0].sequence != r.sequence)
  }

  predicate FailsClientWriter(s: System, a: Action, id: uint64) {
    I.Known(s.ingress, id) &&
    a.OnIngress? && match a.i
                    case OnWriter(k, Write(n, failed)) => k == id && FailsWriter(I.Stream(s.ingress, id).receiver, n, failed)
                    case _ => false
  }

  /** In every run: once a read from the local connection or a send to the worker has failed, nothing more is framed for
      the stream, except the bytes that came with the failed read; once a write to the local connection has failed, or a
      frame came out of order, nothing more is written. */
  lemma ClientFailuresAreFinal(actions: seq<Action>, a: Action, id: uint64, more: seq<Action>)
    requires Execute(Start, actions).Some? && Step(Execute(Start, actions).value, a).Some?
    requires Execute(Step(Execute(Start, actions).value, a).value, more).Some?
    requires FailsClientReader(a, id) || FailsClientWriter(Execute(Start, actions).value, a, id)
    ensures var s := Execute(Start, actions).value;
            var s1 := Step(s, a).value;
            var s2 := Execute(s1, more).value;
            && I.Known(s1.ingress, id) && I.Known(s2.ingress, id)
            && (FailsClientReader(a, id) ==> I.Stream(s2.ingress, id).sender.chunks == I.Stream(s1.ingress, id).sender.chunks)
            && (FailsClientWriter(s, a, id) ==> I.Stream(s2.ingress, id).receiver.produced == I.Stream(s1.ingress, id).receiver.produced)
  {
    StartOk();
    RunKeeps(Start, actions);
    var s := Execute(Start, actions).value;
    StepKeeps(s, a);
    ClientFailureEnds(s.ingress, a.i, id);
    RunEnds(Step(s, a).value, more);
  }

  lemma ClientFailureEnds(i: I.Ingress, a: I.Action, id: uint64)
    requires I.Inv(i) && I.Step(i, a).Some?
    ensures FailsClientReader(OnIngress(a), id) ==>
              I.Known(I.Step(i, a).value, id) && !ClientReads(I.Stream(I.Step(i, a).value, id).reader)
    ensures a.OnWriter? && a.id == id && a.w.Write? && FailsWriter(I.Stream(i, id).receiver, a.w.n, a.w.failed) ==>
              I.Known(I.Step(i, a).value, id) && !I.Running(I.Stream(I.Step(i, a).value, id).writer)
  {
  }

  predicate FailsServerReader(a: Action, c: nat, k: nat) {
    a.OnEgress? && a.c == c && match a.e
                               case OnStream(j, Read(_, failed)) => j == k && failed
                               case OnStream(j, WriteFrame(ok)) => j == k && !ok
                               case _ => false
  }

  predicate FailsServerWriter(s: System, a: Action, c: nat, k: nat) {
    c < |s.sessions| && k < |s.sessions[c].egress.streams| &&
    a.OnEgress? && a.c == c && match a.e
                               case OnStream(j, Write(n, failed)) => j == k && FailsWriter(s.sessions[c].egress.streams[k].receiver, n, failed)
                               case _ => false
  }

  lemma ServerFailureEnds(e: E.Egress, k: nat, s: E.StreamAction)
    requires k < |e.streams| && E.StreamStep(e, k, s).Some?
    ensures var st := E.StreamStep(e, k, s).value.streams;
            && |st| == |e.streams|
            && ((s.Read? && s.failed) || (s.WriteFrame? && !s.ok) ==> !ServerReads(st[k].reader))
            && (s.Write? && FailsWriter(e.streams[k].receiver, s.n, s.failed) ==> !E.Running(st[k].writer))
  {
  }

  /** The same for the loops between the server and its upstream connections. */
  lemma ServerFailuresAreFinal(actions: seq<Action>, a: Action, c: nat, k: nat, more: seq<Action>)
    requires Execute(Start, actions).Some? && Step(Execute(Start, actions).value, a).Some?
    requires Execute(Step(Execute(Start, actions).value, a).value, more).Some?
    requires FailsServerReader(a, c, k) || FailsServerWriter(Execute(Start, actions).value, a, c, k)
    ensures var s := Execute(Start, actions).value;
            var s1 := Step(s, a).value;
            var s2 := Execute(s1, more).value;
            && c < |s1.sessions| && c < |s2.sessions| && k < |s1.sessions[c].egress.streams| && k < |s2.sessions[c].egress.streams|
            && var st1, st2 := s1.sessions[c].egress.streams[k], s2.sessions[c].egress.streams[k];
               && (FailsServerReader(a, c, k) ==> st2.sender.chunks == st1.sender.chunks)
               && (FailsServerWriter(s, a, c, k) ==> st2.receiver.produced == st1.receiver.produced)
  {
    StartOk();
    RunKeeps(Start, actions);
    var s := Execute(Start, actions).value;
    StepKeeps(s, a);
    ServerFailureEnds(s.sessions[c].egress, k, a.e.s);
    RunEnds(Step(s, a).value, more);
    assert EgressStaysEnded(Step(s, a).value.sessions[c].egress, Execute(Step(s, a).value, more).value.sessions[c].egress);
  }

  // ----- loops that end

  /** A loop closes its stream last, and only after a notice unless the client was cancelled; a stream stays in the map
      only while the accept loop or its own loops are at it. */
  predicate LoopsOk(i: I.Ingress, id: nat)
    requires I.Known(i, id)
  {
    var st := I.Stream(i, id);
    && (st.reader.ReaderClose? ==> st.notified || i.cancelled || id !in i.open)
    && (st.writer.WriterClose? ==> st.notified)
    && (st.reader.ReaderDone? ==> id !in i.open)
    && (st.writer.WriterDone? ==> i.cancelled || id !in i.open)
    && (id in i.open ==> i.accepting == Some(id) || !I.Idle(st))
  }

  ghost predicate AllLoopsOk(i: I.Ingress) { forall id :: I.Known(i, id) ==> LoopsOk(i, id) }

  /** The stream itself did not move, and closing, cancelling and giving notice only go one way. */
  predicate Rests(i: I.Ingress, i': I.Ingress, id: nat)
    requires I.Known(i, id) && I.Known(i', id)
  {
    var st, st' := I.Stream(i, id), I.Stream(i', id);
    && st'.reader == st.reader && st'.writer == st.writer && (st.notified ==> st'.notified)
    && (i.cancelled ==> i'.cancelled) && (id in i'.open ==> id in i.open) && (i.accepting == Some(id) && id in i'.open ==> i'.accepting == Some(id))
  }

  lemma ReaderLoops(i: I.Ingress, id: uint64, r: I.ReaderAction, k: nat)
    requires I.Inv(i) && I.Known(i, id) && I.Known(i, k) && LoopsOk(i, k) && I.ReaderStep(i, id, r).Some?
    ensures I.Known(I.ReaderStep(i, id, r).value, k) && LoopsOk(I.ReaderStep(i, id, r).value, k)
  {
    if k != id {
      OtherReaderRests(i, id, r, k);
    } else if r.ReaderNotifies? {
      NoticeLoops(i, id, r.sent);
    } else if r.ReaderCloses? {
      CloseLoops(i, id);
    }
  }

  lemma OtherReaderRests(i: I.Ingress, id: uint64, r: I.ReaderAction, k: nat)
    requires I.Known(i, id) && I.Known(i, k) && I.ReaderStep(i, id, r).Some? && k != id
    ensures I.Known(I.ReaderStep(i, id, r).value, k) && Rests(i, I.ReaderStep(i, id, r).value, k)
  {
  }

  lemma NoticeLoops(i: I.Ingress, id: uint64, sent: bool)
    requires I.Known(i, id) && LoopsOk(i, id) && I.Stream(i, id).channel < |i.channels| && I.Stream(i, id).reader.ReaderNotify?
    ensures var i' := I.NotifyRemoteClose(I.With(i, id, I.Stream(i, id).(reader := I.ReaderClose)), id, sent);
            I.Known(i', id) && LoopsOk(i', id)
  {
  }

  lemma CloseLoops(i: I.Ingress, id: uint64)
    requires I.Known(i, id) && LoopsOk(i, id)
    ensures var i' := I.CloseStream(I.With(i, id, I.Stream(i, id).(reader := I.ReaderDone)), id);
            I.Known(i', id) && LoopsOk(i', id)
  {
  }

  lemma WriterLoops(i: I.Ingress, id: uint64, w: I.WriterAction, k: nat)
    requires I.Inv(i) && I.Known(i, id) && I.Known(i, k) && LoopsOk(i, k) && I.WriterStep(i, id, w).Some?
    ensures I.Known(I.WriterStep(i, id, w).value, k) && LoopsOk(I.WriterStep(i, id, w).value, k)
  {
    var i' := I.WriterStep(i, id, w).value;
    if k != id {
      assert Rests(i, i', k);
    }
  }

  lemma AcceptLoops(i: I.Ingress, a: I.Action, k: nat)
    requires I.Inv(i) && AllLoopsOk(i) && (a.Accept? || a.OpenSend?) && I.Step(i, a).Some? && I.Known(I.Step(i, a).value, k)
    ensures LoopsOk(I.Step(i, a).value, k)
  {
    if I.Known(i, k) {
      assert LoopsOk(i, k);
    }
  }

  lemma IngressLoops(i: I.Ingress, a: I.Action, k: nat)
    requires I.Inv(i) && AllLoopsOk(i) && I.Step(i, a).Some? && I.Known(I.Step(i, a).value, k)
    ensures LoopsOk(I.Step(i, a).value, k)
  {
    match a
    case OnReader(id, r) => StaysKnown(i, a, k); ReaderLoops(i, id, r, k);
    case OnWriter(id, w) => StaysKnown(i, a, k); WriterLoops(i, id, w, k);
    case Accept(_) => AcceptLoops(i, a, k);
    case OpenSend(_) => AcceptLoops(i, a, k);
    case _ => assert LoopsOk(i, k) && Rests(i, I.Step(i, a).value, k);
  }

  lemma StaysKnown(i: I.Ingress, a: I.Action, k: nat)
    requires I.Step(i, a).Some? && (a.OnReader? || a.OnWriter?) && I.Known(I.Step(i, a).value, k)
    ensures I.Known(i, k)
  {
  }

  /** What the forwarders do to the ingress leaves the loops where they are. */
  lemma ForwardersRest(s: System, a: Action, k: nat)
    requires Inv(s) && Step(s, a).Some? && !a.OnIngress? && I.Known(Step(s, a).value.ingress, k)
    ensures I.Known(s.ingress, k) && Rests(s.ingress, Step(s, a).value.ingress, k)
  {
    match a
    case ClientReceives(c, b) =>
      if ReadDatagram(b).Ok? {
        ClosingRests(s.ingress, ReadDatagram(b).value.streamID, k);
      }
    case ClientCloses(c) => ForwarderRests(s, c, a, k);
    case ClientNotifies(c, _) => ForwarderRests(s, c, a, k);
    case ClientQueues(c, _) => ForwarderRests(s, c, a, k);
    case Forward(c, written) => PoppingRests(s, c, written, k);
    case _ =>
  }

  lemma ForwarderRests(s: System, c: nat, a: Action, k: nat)
    requires Inv(s) && c < |s.sessions| && (a.ClientQueues? || a.ClientNotifies? || a.ClientCloses?)
    requires ForwarderStep(s, c, a).Some? && I.Known(ForwarderStep(s, c, a).value.ingress, k)
    ensures I.Known(s.ingress, k) && Rests(s.ingress, ForwarderStep(s, c, a).value.ingress, k)
  {
    var t := s.sessions[c].forwarder;
    if a.ClientCloses? {
      ClosingRests(s.ingress, t.id, k);
    } else if a.ClientNotifies? {
      NotifyingRests(s.ingress, t.id, a.sent, k);
    } else {
      QueueingRests(s.ingress, t.id, t.frame, a.preferDone, k);
    }
  }

  lemma PoppingRests(s: System, c: nat, written: bool, k: nat)
    requires Step(s, Forward(c, written)).Some? && I.Known(Step(s, Forward(c, written)).value.ingress, k)
    ensures I.Known(s.ingress, k) && Rests(s.ingress, Step(s, Forward(c, written)).value.ingress, k)
  {
  }

  lemma NotifyingRests(i: I.Ingress, id: uint64, sent: bool, k: nat)
    requires I.Known(i, k) && I.Known(i, id) && I.Stream(i, id).channel < |i.channels|
    ensures I.Known(I.NotifyRemoteClose(i, id, sent), k) && Rests(i, I.NotifyRemoteClose(i, id, sent), k)
  {
  }

  lemma QueueingRests(i: I.Ingress, id: nat, f: Frame, preferDone: bool, k: nat)
    requires I.Known(i, k) && I.Known(i, id)
    ensures I.Known(I.QueueInbound(i, id, f, preferDone), k) && Rests(i, I.QueueInbound(i, id, f, preferDone), k)
  {
  }

  lemma ClosingRests(i: I.Ingress, id: nat, k: nat)
    requires I.Known(i, k)
    ensures I.Known(I.CloseStream(i, id), k) && Rests(i, I.CloseStream(i, id), k)
  {
  }

  lemma StepLoops(s: System, a: Action)
    requires Inv(s) && AllLoopsOk(s.ingress) && Step(s, a).Some?
    ensures AllLoopsOk(Step(s, a).value.ingress)
  {
    var i' := Step(s, a).value.ingress;
    forall k | I.Known(i', k) ensures LoopsOk(i', k) {
      if a.OnIngress? {
        IngressLoops(s.ingress, a.i, k);
      } else {
        ForwardersRest(s, a, k);
        assert LoopsOk(s.ingress, k);
      }
    }
  }

  /** On the server, the goroutine of a stream ends with its closing; both loops run from a successful dial on, and it
      closes the stream only after both have ended. */
  predicate RunOk(st: E.UpstreamStream) {
    && (st.dial.RunDone? ==> st.done) && (st.dial.Dialed? ==> !st.reader.ReaderIdle? && !st.writer.WriterIdle?)
    && (st.dial.Dialing? ==> st.reader.ReaderIdle? && st.writer.WriterIdle?)
    && (st.dial.RunClosing? || st.dial.RunDone? ==>
          (st.reader.ReaderIdle? && st.writer.WriterIdle?) || (st.reader.ReaderDone? && st.writer.WriterDone?))
  }

  ghost predicate RunsOk(e: E.Egress) { forall k :: 0 <= k < |e.streams| ==> RunOk(e.streams[k]) }

  lemma StreamStepRuns(e: E.Egress, k: nat, s: E.StreamAction)
    requires E.Inv(e) && RunsOk(e) && k < |e.streams| && E.StreamStep(e, k, s).Some?
    ensures RunsOk(E.StreamStep(e, k, s).value)
  {
    E.StreamStepFrame(e, k, s);
    assert E.StreamOk(e, k);
    var e' := E.StreamStep(e, k, s).value;
    forall j | 0 <= j < |e'.streams| ensures RunOk(e'.streams[j]) {
      if s.RunCloses? {
        RunClosesRuns(e, k, s.written, j);
      } else {
        OwnStepRuns(e, k, s, j);
      }
    }
  }

  lemma ClosingRuns(e: E.Egress, id: uint64, notify: bool, written: bool, j: nat)
    requires j < |e.streams|
    ensures var e' := E.CloseStream(e, id, notify, written);
            && |e'.streams| == |e.streams| && (RunOk(e.streams[j]) ==> RunOk(e'.streams[j]))
            && (id in e.open && e.open[id] == j ==> e'.streams[j].done && e'.streams[j].dial == e.streams[j].dial)
  {
  }

  lemma RunClosesRuns(e: E.Egress, k: nat, written: bool, j: nat)
    requires k < |e.streams| && E.StreamOk(e, k) && j < |e.streams| && RunOk(e.streams[j]) && e.streams[k].dial.RunClosing?
    ensures var e' := E.CloseStream(E.With(e, k, e.streams[k].(dial := E.RunDone)), e.streams[k].id, true, written);
            j < |e'.streams| && RunOk(e'.streams[j])
  {
    var m := E.With(e, k, e.streams[k].(dial := E.RunDone));
    ClosingRuns(m, e.streams[k].id, true, written, j);
    assert !e.streams[k].done ==> E.Mapped(e, k);
  }

  lemma OwnStepRuns(e: E.Egress, k: nat, s: E.StreamAction, j: nat)
    requires k < |e.streams| && j < |e.streams| && RunOk(e.streams[k]) && RunOk(e.streams[j])
    requires E.StreamStep(e, k, s).Some? && !s.RunCloses?
    ensures j < |E.StreamStep(e, k, s).value.streams| && RunOk(E.StreamStep(e, k, s).value.streams[j])
  {
  }

  lemma EgressRuns(e: E.Egress, a: E.Action)
    requires E.Inv(e) && RunsOk(e) && E.Step(e, a).Some?
    ensures RunsOk(E.Step(e, a).value)
  {
    E.StepFrame(e, a);
    match a
    case OnStream(k, s) => StreamStepRuns(e, k, s);
    case AsyncClose(id, written) =>
      forall j | 0 <= j < |e.streams| ensures RunOk(E.Step(e, a).value.streams[j]) {
        ClosingRuns(e.(asyncCloses := e.asyncCloses - multiset{id}), id, true, written, j);
      }
    case CloseCollected(id) =>
      forall j | 0 <= j < |e.streams| ensures RunOk(E.Step(e, a).value.streams[j]) {
        ClosingRuns(e.(closing := e.closing - {id}), id, false, false, j);
      }
    case _ =>
  }

  lemma ReceiveRuns(e: E.Egress, b: Bytes)
    requires E.Inv(e) && RunsOk(e)
    ensures RunsOk(E.ReceiveFrame(e, b))
  {
  }

  lemma StepRuns(s: System, a: Action, c: nat)
    requires Inv(s) && (forall d :: 0 <= d < |s.sessions| ==> RunsOk(s.sessions[d].egress)) && Step(s, a).Some?
    requires c < |Step(s, a).value.sessions|
    ensures RunsOk(Step(s, a).value.sessions[c].egress)
  {
    if c >= |s.sessions| {
      assert a.NewSession?;
    } else if a.OnEgress? && a.c == c {
      EgressRuns(s.sessions[c].egress, a.e);
    } else if a.ServerReceives? && a.c == c {
      ReceiveRuns(s.sessions[c].egress, a.datagram);
    } else {
      OtherEgress(s, a, c);
    }
  }

  lemma {:induction false} LoopsRun(s: System, actions: seq<Action>)
    requires Inv(s) && Execute(s, actions).Some?
    requires AllLoopsOk(s.ingress) && forall c :: 0 <= c < |s.sessions| ==> RunsOk(s.sessions[c].egress)
    ensures var s' := Execute(s, actions).value;
            AllLoopsOk(s'.ingress) && forall c :: 0 <= c < |s'.sessions| ==> RunsOk(s'.sessions[c].egress)
    decreases |actions|
  {
    if actions != [] {
      var s1 := Step(s, actions[0]).value;
      StepKeeps(s, actions[0]);
      StepLoops(s, actions[0]);
      forall c | 0 <= c < |s1.sessions| ensures RunsOk(s1.sessions[c].egress) {
        StepRuns(s, actions[0], c);
      }
      LoopsRun(s1, actions[1..]);
    }
  }

  /** In every run: when the reader loop of a client stream, or the goroutine of a server stream, has ended, the stream
      is closed; when the writer loop has ended, it is closed or the client was cancelled. A client loop that is about to
      close an open stream has given notice first, unless the client was cancelled; the goroutine of a server stream closes it only when
      both loops have ended. No stream stays in the client's map that neither the accept loop nor loops of its own are at. */
  lemma LoopsEndInCloses(actions: seq<Action>)
    requires Execute(Start, actions).Some?
    ensures var s := Execute(Start, actions).value;
            && (forall id :: I.Known(s.ingress, id) ==> LoopsOk(s.ingress, id))
            && (forall c, k :: 0 <= c < |s.sessions| && 0 <= k < |s.sessions[c].egress.streams| ==>
                  RunOk(s.sessions[c].egress.streams[k]))
  {
    StartOk();
    LoopsRun(Start, actions);
    forall c, k | 0 <= c < |Execute(Start, actions).value.sessions| && 0 <= k < |Execute(Start, actions).value.sessions[c].egress.streams|
      ensures RunOk(Execute(Start, actions).value.sessions[c].egress.streams[k])
    {
      assert RunsOk(Execute(Start, actions).value.sessions[c].egress);
    }
  }

  /** Which datagrams each side fails on. */
  lemma FaultsExactly(s: System, c: nat, b: Bytes)
    requires c < |s.sessions| && s.sessions[c].egress.fault.None? && !s.sessions[c].deliveryFailed
    ensures var e, r := s.sessions[c].egress, ReadDatagram(b);
            && E.ReceiveFrame(e, b).fault ==
               (if r.Err? then Some(E.BadFrame)
                else if r.value.kind == DATAGRAM then Some(E.Fault.UnsupportedKind)
                else if r.value.kind == STREAM_OPEN && r.value.streamID in e.open then Some(E.AlreadyOpen) else None)
            && (Deliver(s, c, b).sessions[c].deliveryFailed <==> r.Err? || r.value.kind == DATAGRAM)
  {
  }

  /** What each side does with a datagram it does not fail on: a data frame for an id in its map is taken up for that
      stream, an open frame for an id not in the server's map makes a new stream, and any other but a close is dropped. */
  lemma ArrivalsExactly(s: System, c: nat, b: Bytes)
    requires c < |s.sessions| && ReadDatagram(b).Ok?
    ensures var e, e', f := s.sessions[c].egress, E.ReceiveFrame(s.sessions[c].egress, b), ReadDatagram(b).value;
            && (f.kind == STREAM_DATA ==>
                  e' == if f.streamID in e.open then e.(handling := Some((e.open[f.streamID], f))) else e)
            && (f.kind == STREAM_OPEN && f.streamID !in e.open ==>
                  && |e'.streams| == |e.streams| + 1 && e'.streams[..|e.streams|] == e.streams
                  && e'.open == e.open[f.streamID := |e.streams|] && e'.sent == e.sent
                  && e'.streams[|e.streams|].id == f.streamID && e'.streams[|e.streams|].dial == E.Dialing && !e'.streams[|e.streams|].done)
            && (f.kind !in {DATAGRAM, STREAM_OPEN, STREAM_DATA, STREAM_CLOSE} ==> e' == e)
    ensures var f, t, s' := ReadDatagram(b).value, s.sessions[c], Deliver(s, c, b);
            && (f.kind == STREAM_DATA ==>
                  && s'.ingress == s.ingress && |s'.sessions| == |s.sessions|
                  && s'.sessions[c] == if f.streamID in s.ingress.open then t.(forwarder := Queueing(f.streamID, f)) else t)
            && (f.kind !in {DATAGRAM, STREAM_DATA, STREAM_CLOSE} ==> s' == s)
  {
  }

  // ----- closing lets the loops end

  /** How far the goroutine of a server stream is from its end. */
  function ServerLeft(st: E.UpstreamStream): nat {
    match st.dial
    case Dialing => 6
    case Dialed =>
      2 + (match st.reader case WriteBack(_, _) => 2 case ReaderDone => 0 case _ => 1) + if st.writer.WriterDone? then 0 else 1
    case RunClosing => 1
    case RunDone => 0
  }

  function ServerNext(st: E.UpstreamStream): E.StreamAction {
    match st.dial
    case Dialing => E.Dial(false)
    case Dialed =>
      if st.reader.ReadUpstream? then E.Read([], true) else if st.reader.WriteBack? then E.WriteFrame(false)
      else if st.writer.WriterLoop? then E.WriterExits else E.RunReturns
    case _ => E.RunCloses(false)
  }

  lemma ServerLoopEnds(e: E.Egress, k: nat)
    requires E.Inv(e) && RunsOk(e) && k < |e.streams| && (e.streams[k].done || e.cancelled) && !e.streams[k].dial.RunDone?
    requires e.streams[k].sender.sequence + 1 < UINT64_LIMIT
    ensures var e' := E.StreamStep(e, k, ServerNext(e.streams[k]));
            e'.Some? && k < |e'.value.streams| && ServerLeft(e'.value.streams[k]) < ServerLeft(e.streams[k])
  {
    assert E.StreamOk(e, k);
    if e.streams[k].dial.RunClosing? {
      ServerCloseEnds(e, k);
    }
  }

  lemma ServerCloseEnds(e: E.Egress, k: nat)
    requires k < |e.streams| && E.StreamOk(e, k) && e.streams[k].dial.RunClosing?
    ensures var e' := E.StreamStep(e, k, E.RunCloses(false));
            e'.Some? && k < |e'.value.streams| && e'.value.streams[k].dial == E.RunDone
  {
  }

  function ReaderLeft(r: I.ReaderPc): nat {
    match r
    case SendData(_, _) => 4
    case ReadLocal => 3
    case ReaderNotify => 2
    case ReaderClose => 1
    case _ => 0
  }

  function WriterLeft(w: I.WriterPc): nat {
    match w
    case WriterLoop => 3
    case WriterNotify => 2
    case WriterClose => 1
    case _ => 0
  }

  function ReaderNext(r: I.ReaderPc): I.ReaderAction {
    match r
    case SendData(_, _) => I.Send(false)
    case ReadLocal => I.Read([], true)
    case ReaderNotify => I.ReaderNotifies(false)
    case _ => I.ReaderCloses
  }

  function WriterNext(w: I.WriterPc): I.WriterAction {
    match w
    case WriterLoop => I.WriterExits
    case WriterNotify => I.WriterNotifies(false)
    case _ => I.WriterCloses
  }

  lemma ClientReaderEnds(i: I.Ingress, id: uint64)
    requires I.Inv(i) && I.Known(i, id) && I.Stream(i, id).sender.sequence + 1 < UINT64_LIMIT && ReaderLeft(I.Stream(i, id).reader) > 0
    ensures var r := I.Stream(i, id).reader; var i' := I.ReaderStep(i, id, ReaderNext(r));
            i'.Some? && I.Known(i'.value, id) && ReaderLeft(I.Stream(i'.value, id).reader) < ReaderLeft(r)
  {
    assert I.StreamOk(i, id);
  }

  lemma ClientWriterEnds(i: I.Ingress, id: uint64)
    requires I.Inv(i) && I.Known(i, id) && (I.Stream(i, id).done || i.cancelled) && WriterLeft(I.Stream(i, id).writer) > 0
    ensures var w := I.Stream(i, id).writer; var i' := I.WriterStep(i, id, WriterNext(w));
            i'.Some? && I.Known(i'.value, id) && WriterLeft(I.Stream(i'.value, id).writer) < WriterLeft(w)
  {
    assert I.StreamOk(i, id);
  }

  /** In every run: once a stream is closed on either side, or that side was cancelled, each loop of it that has not ended
      can always take a step that brings it nearer to its end, if reads from closed connections fail. */
  lemma ClosingLetsLoopsEnd(actions: seq<Action>, id: uint64, c: nat, k: nat)
    requires Execute(Start, actions).Some?
    ensures var s := Execute(Start, actions).value;
            && (I.Known(s.ingress, id) && (I.Stream(s.ingress, id).done || s.ingress.cancelled) && I.Stream(s.ingress, id).sender.sequence + 1 < UINT64_LIMIT ==>
                  var st := I.Stream(s.ingress, id);
                  && (ReaderLeft(st.reader) > 0 ==>
                        var i' := I.ReaderStep(s.ingress, id, ReaderNext(st.reader));
                        i'.Some? && I.Known(i'.value, id) && ReaderLeft(I.Stream(i'.value, id).reader) < ReaderLeft(st.reader))
                  && (WriterLeft(st.writer) > 0 ==>
                        var i' := I.WriterStep(s.ingress, id, WriterNext(st.writer));
                        i'.Some? && I.Known(i'.value, id) && WriterLeft(I.Stream(i'.value, id).writer) < WriterLeft(st.writer)))
            && (c < |s.sessions| && k < |s.sessions[c].egress.streams| ==>
                  var e := s.sessions[c].egress;
                  var st := e.streams[k];
                  ((st.done || e.cancelled) && st.writer.WriterLoop? ==> E.StreamStep(e, k, E.WriterExits).Some?) &&
                  ((st.done || e.cancelled) && st.sender.sequence + 1 < UINT64_LIMIT && ServerLeft(st) > 0 ==>
                     var e' := E.StreamStep(e, k, ServerNext(st));
                     e'.Some? && k < |e'.value.streams| && ServerLeft(e'.value.streams[k]) < ServerLeft(st)))
  {
    StartOk();
    RunKeeps(Start, actions);
    LoopsRun(Start, actions);
    var s := Execute(Start, actions).value;
    if I.Known(s.ingress, id) && (I.Stream(s.ingress, id).done || s.ingress.cancelled) && I.Stream(s.ingress, id).sender.sequence + 1 < UINT64_LIMIT {
      if ReaderLeft(I.Stream(s.ingress, id).reader) > 0 {
        ClientReaderEnds(s.ingress, id);
      }
      if WriterLeft(I.Stream(s.ingress, id).writer) > 0 {
        ClientWriterEnds(s.ingress, id);
      }
    }
    if c < |s.sessions| && k < |s.sessions[c].egress.streams| {
      var st := s.sessions[c].egress.streams[k];
      if (st.done || s.sessions[c].egress.cancelled) && st.sender.sequence + 1 < UINT64_LIMIT && ServerLeft(st) > 0 {
        ServerLoopEnds(s.sessions[c].egress, k);
      }
    }
  }
}
