/** The way back through the tunnel: from an upstream connection to the local connection of its stream. */
module TunnelDown {
  import opened Wrappers
  import opened Frames
  import opened Streams
  import opened Tunnel
  import opened TunnelReopen
  import I = TcpIngress
  import E = TcpEgress

  /** What the local side of stream id holds comes from the one upstream connection of that id. */
  predicate LocalOk(s: System, id: nat)
    requires I.Known(s.ingress, id)
  {
    var st := I.Stream(s.ingress, id);
    st.channel < |s.sessions| &&
    var e := s.sessions[st.channel].egress;
    E.SingleUpstream(e) ==> Follows(st.receiver, I.Running(st.writer), id, E.SourceChunks(e, id))
  }

  /** A frame between lookup and queueing came over the channel of its own stream. */
  predicate ForwarderOk(s: System, c: nat)
    requires c < |s.sessions|
  {
    var t := s.sessions[c];
    t.forwarder.Queueing? ==>
      var (id, f) := (t.forwarder.id, t.forwarder.frame);
      && I.Known(s.ingress, id) && I.Stream(s.ingress, id).channel == c && f.kind == STREAM_DATA
      && E.Find(t.egress.streams, id) < |t.egress.streams|
      && (E.SingleUpstream(t.egress) ==> FrameOf(f, id, E.SourceChunks(t.egress, id)))
  }

  ghost predicate DownInv(s: System) {
    && Inv(s)
    && (forall id :: I.Known(s.ingress, id) ==> LocalOk(s, id))
    && (forall c :: 0 <= c < |s.sessions| ==> ForwarderOk(s, c))
  }

  lemma SourceOnlyGrows(e: E.Egress, e': E.Egress, id: nat)
    requires E.Extends(e, e')
    ensures E.SourceChunks(e, id) <= E.SourceChunks(e', id)
  {
    if E.Find(e.streams, id) < |e.streams| {
      E.SourceGrows(e, e', id);
    }
  }

  /** Whatever else moved, a stream whose receiver took at most a turn of its own is still right. */
  lemma LocalCarries(s: System, s': System, id: nat)
    requires I.Known(s.ingress, id) && LocalOk(s, id) && Extends(s, s')
    requires var st, st' := I.Stream(s.ingress, id), I.Stream(s'.ingress, id);
             ReceiverStep(st.receiver, I.Running(st.writer), st'.receiver, I.Running(st'.writer))
    ensures LocalOk(s', id)
  {
    var st, st' := I.Stream(s.ingress, id), I.Stream(s'.ingress, id);
    var e, e' := s.sessions[st.channel].egress, s'.sessions[st.channel].egress;
    if E.SingleUpstream(e') {
      E.SingleBefore(e, e');
      SourceOnlyGrows(e, e', id);
      StepFollows(st.receiver, I.Running(st.writer), st'.receiver, I.Running(st'.writer), id, E.SourceChunks(e, id));
      FollowsGrows(st'.receiver, I.Running(st'.writer), id, E.SourceChunks(e, id), E.SourceChunks(e', id));
    }
  }

  lemma ForwarderCarries(s: System, s': System, c: nat)
    requires c < |s.sessions| && ForwarderOk(s, c) && Extends(s, s')
    requires s'.sessions[c].forwarder == s.sessions[c].forwarder || !s'.sessions[c].forwarder.Queueing?
    ensures ForwarderOk(s', c)
  {
    var e, e' := s.sessions[c].egress, s'.sessions[c].egress;
    if s'.sessions[c].forwarder.Queueing? {
      E.SourceGrows(e, e', s.sessions[c].forwarder.id);
    }
  }

  /** Every step but the queueing of a delivered frame leaves receivers to their own writer loops. */
  lemma StepTurnsLocalReceivers(s: System, a: Action, id: nat)
    requires Inv(s) && Step(s, a).Some? && !a.ClientQueues? && I.Known(s.ingress, id)
    ensures I.Known(Step(s, a).value.ingress, id)
    ensures var st, st' := I.Stream(s.ingress, id), I.Stream(Step(s, a).value.ingress, id);
            ReceiverStep(st.receiver, I.Running(st.writer), st'.receiver, I.Running(st'.writer))
  {
    StepKeeps(s, a);
    if a.OnIngress? {
      I.StepTurnsReceivers(s.ingress, a.i, id);
    } else if a.ClientReceives? {
      DeliveryLeavesReceivers(s, a.c, a.datagram, id);
    } else if a.ClientNotifies? {
      I.ClosingLeavesReceivers(s.ingress, s.sessions[a.c].forwarder.id, a.sent, id);
    } else if a.ClientCloses? {
      I.ClosingLeavesReceivers(s.ingress, s.sessions[a.c].forwarder.id, false, id);
    }
  }

  lemma DeliveryLeavesReceivers(s: System, c: nat, b: Bytes, id: nat)
    requires c < |s.sessions| && I.Known(s.ingress, id)
    ensures I.SameReceiver(s.ingress, Deliver(s, c, b).ingress, id)
  {
    if ReadDatagram(b).Ok? {
      I.ClosingLeavesReceivers(s.ingress, ReadDatagram(b).value.streamID, false, id);
    }
  }

  lemma NewStreamsStartFresh(s: System, a: Action, id: nat)
    requires Inv(s) && Step(s, a).Some? && !I.Known(s.ingress, id) && I.Known(Step(s, a).value.ingress, id)
    ensures I.Stream(Step(s, a).value.ingress, id).receiver == NewReceiver
  {
    if a.OnIngress? {
      I.NewStreamsStartFresh(s.ingress, a.i, id);
    }
  }

  lemma FreshIsRight(s: System, id: nat)
    requires Inv(s) && I.Known(s.ingress, id) && I.Stream(s.ingress, id).receiver == NewReceiver
    ensures LocalOk(s, id)
  {
    assert I.StreamOk(s.ingress, id);
    assert Concat([]) == [];
    var chunks := E.SourceChunks(s.sessions[I.Stream(s.ingress, id).channel].egress, id);
    assert chunks[..0] == [];
  }

  /** Only a datagram from the link puts a frame before the queue, and it is one the server sent. */
  lemma DeliveryIsRight(s: System, c: nat, b: Bytes)
    requires DownInv(s) && Step(s, ClientReceives(c, b)).Some?
    ensures ForwarderOk(Step(s, ClientReceives(c, b)).value, c)
  {
    var s' := Step(s, ClientReceives(c, b)).value;
    var e := s.sessions[c].egress;
    var f := ReadDatagram(b).value;
    assert E.Inv(e) && E.SentKind(e, b);
    if s'.sessions[c].forwarder.Queueing? {
      var k := E.Find(e.streams, f.streamID);
      assert SessionOk(s, c) && UpstreamOk(s, c, k);
    }
  }

  /** What queueing does to a stream: nothing, or the forwarder's frame goes to the end of its queue. */
  lemma QueueTouches(s: System, a: Action, id: nat)
    requires a.ClientQueues? && Step(s, a).Some? && I.Known(s.ingress, id)
    ensures var s' := Step(s, a).value; var t := s.sessions[a.c];
            && I.Known(s'.ingress, id) && |s'.sessions| == |s.sessions|
            && (forall c :: 0 <= c < |s.sessions| ==> s'.sessions[c].egress == s.sessions[c].egress)
            && var st, st' := I.Stream(s.ingress, id), I.Stream(s'.ingress, id);
               && st'.channel == st.channel && st'.writer == st.writer
               && (st'.receiver == st.receiver || (t.forwarder.id == id && st'.receiver == Queued(st.receiver, t.forwarder.frame)))
  {
  }

  lemma QueueIsRight(s: System, a: Action, id: nat)
    requires DownInv(s) && a.ClientQueues? && Step(s, a).Some? && I.Known(s.ingress, id)
    ensures I.Known(Step(s, a).value.ingress, id) && LocalOk(Step(s, a).value, id)
  {
    assert LocalOk(s, id) && ForwarderOk(s, a.c);
    QueueTouches(s, a, id);
  }

  lemma DownStepKeeps(s: System, a: Action)
    requires DownInv(s) && Step(s, a).Some?
    ensures DownInv(Step(s, a).value)
  {
    var s' := Step(s, a).value;
    StepKeeps(s, a);
    forall id | I.Known(s'.ingress, id) ensures LocalOk(s', id) {
      LocalStepKeeps(s, a, id);
    }
    forall c | 0 <= c < |s'.sessions| ensures ForwarderOk(s', c) {
      ForwarderStepKeeps(s, a, c);
    }
  }

  lemma LocalStepKeeps(s: System, a: Action, id: nat)
    requires DownInv(s) && Step(s, a).Some? && I.Known(Step(s, a).value.ingress, id)
    ensures LocalOk(Step(s, a).value, id)
  {
    StepKeeps(s, a);
    if !I.Known(s.ingress, id) {
      NewStreamsStartFresh(s, a, id);
      FreshIsRight(Step(s, a).value, id);
    } else if a.ClientQueues? {
      QueueIsRight(s, a, id);
    } else {
      StepTurnsLocalReceivers(s, a, id);
      LocalCarries(s, Step(s, a).value, id);
    }
  }

  /** Only a datagram received on a channel puts its forwarder before the queue. */
  lemma ForwarderMoves(s: System, a: Action, c: nat)
    requires Step(s, a).Some? && c < |s.sessions| && !(a.ClientReceives? && a.c == c)
    ensures var s' := Step(s, a).value;
            c < |s'.sessions| && (s'.sessions[c].forwarder == s.sessions[c].forwarder || !s'.sessions[c].forwarder.Queueing?)
  {
    match a
    case ClientQueues(d, _) =>
    case ClientNotifies(d, _) =>
    case ClientCloses(d) =>
    case _ =>
  }

  lemma ForwarderStepKeeps(s: System, a: Action, c: nat)
    requires DownInv(s) && Step(s, a).Some? && Extends(s, Step(s, a).value) && c < |Step(s, a).value.sessions|
    ensures ForwarderOk(Step(s, a).value, c)
  {
    if a.ClientReceives? && a.c == c {
      DeliveryIsRight(s, c, a.datagram);
    } else if c < |s.sessions| {
      assert ForwarderOk(s, c);
      ForwarderMoves(s, a, c);
      ForwarderCarries(s, Step(s, a).value, c);
    } else {
      NewForwarder(s, a, c);
    }
  }

  lemma NewForwarder(s: System, a: Action, c: nat)
    requires Step(s, a).Some? && |s.sessions| <= c < |Step(s, a).value.sessions|
    ensures Step(s, a).value.sessions[c].forwarder == Receiving
  {
    assert a.NewSession?;
  }

  lemma {:induction false} DownRunKeeps(s: System, actions: seq<Action>)
    requires DownInv(s) && Execute(s, actions).Some?
    ensures DownInv(Execute(s, actions).value)
    decreases |actions|
  {
    if actions != [] {
      DownStepKeeps(s, actions[0]);
      DownRunKeeps(Step(s, actions[0]).value, actions[1..]);
    }
  }

  /** In every run in which the session of a stream's channel never takes an open frame for an id that it opened before
      and closed since, the bytes written to the local connection are a prefix of the bytes read from the one
      upstream connection of the same stream id, and none if there is no such connection. */
  lemma LocalGetsPrefix(actions: seq<Action>, id: nat)
    requires Execute(Start, actions).Some?
    requires I.Known(Execute(Start, actions).value.ingress, id)
    ensures var s := Execute(Start, actions).value;
            var st := I.Stream(s.ingress, id);
            st.channel < |s.sessions| &&
            var e := s.sessions[st.channel].egress;
            var k := E.Find(e.streams, id);
            NeverReopens(Start, actions, st.channel) ==>
              E.SingleUpstream(e) &&
              if k < |e.streams| then st.receiver.produced <= e.streams[k].sender.consumed else st.receiver.produced == []
  {
    StartOk();
    DownRunKeeps(Start, actions);
    var s := Execute(Start, actions).value;
    var st := I.Stream(s.ingress, id);
    assert LocalOk(s, id);
    var e := s.sessions[st.channel].egress;
    SingleExactly(actions, st.channel);
    if E.SingleUpstream(e) {
      var k := E.Find(e.streams, id);
      if k < |e.streams| {
        assert E.StreamOk(e, k);
        FollowsIsPrefix(st.receiver, I.Running(st.writer), id, e.streams[k].sender, E.Framing(e.streams[k].reader));
      }
    }
  }
}
