/** What becomes of a close: the side that closes a stream with notice tells the other side, and the notice takes the
    stream out of the other side's map. */
module TunnelNotices {
  import opened Wrappers
  import opened Frames
  import opened Streams
  import opened Tunnel
  import I = TcpIngress
  import E = TcpEgress

  // ----- from the server to the client

  /** A server goroutine closes an id with notice, and the write succeeds. */
  predicate ClosesWithNotice(s: System, a: Action, c: nat, id: uint64) {
    && a.OnEgress? && a.c == c && c < |s.sessions|
    && match a.e
       case AsyncClose(asked, written) => asked == id && written
       case OnStream(k, RunCloses(written)) => k < |s.sessions[c].egress.streams| && s.sessions[c].egress.streams[k].id == id && written
       case _ => false
  }

  lemma EgressNotice(e: E.Egress, a: E.Action, id: uint64)
    requires E.Inv(e) && E.Step(e, a).Some? && id in e.open
    requires match a
             case AsyncClose(asked, written) => asked == id && written
             case OnStream(k, RunCloses(written)) => k < |e.streams| && e.streams[k].id == id && written
             case _ => false
    ensures var e', k := E.Step(e, a).value, e.open[id];
            && e'.sent == e.sent + {Wire(CloseFrame(id))} && e'.open == e.open - {id}
            && k < |e.streams| && k < |e'.streams| && e.streams[k].closes == 0 && e'.streams[k].closes == 1 && e'.streams[k].done
  {
    match a
    case AsyncClose(_, _) =>
      var m := e.(asyncCloses := e.asyncCloses - multiset{id});
      E.SameStreams(e, m);
      E.CloseExactly(m, id, true, true);
    case OnStream(k, s) =>
      var st := e.streams[k].(dial := E.RunDone);
      assert E.StreamOk(e, k);
      E.WithKeeps(e, k, st);
      E.CloseExactly(E.With(e, k, st), id, true, true);
      assert E.Step(e, a).value == E.CloseStream(E.With(e, k, st), id, true, true);
    case _ =>
  }

  lemma EgressKeepsSent(e: E.Egress, a: E.Action)
    requires E.Step(e, a).Some?
    ensures e.sent <= E.Step(e, a).value.sent
  {
  }

  lemma StepKeepsSent(s: System, a: Action, c: nat)
    requires Step(s, a).Some? && c < |s.sessions|
    ensures c < |Step(s, a).value.sessions| && s.sessions[c].egress.sent <= Step(s, a).value.sessions[c].egress.sent
  {
    if a.OnEgress? {
      EgressKeepsSent(s.sessions[a.c].egress, a.e);
    }
  }

  lemma {:induction false} RunKeepsSent(s: System, actions: seq<Action>, c: nat)
    requires Execute(s, actions).Some? && c < |s.sessions|
    ensures c < |Execute(s, actions).value.sessions|
    ensures s.sessions[c].egress.sent <= Execute(s, actions).value.sessions[c].egress.sent
    decreases |actions|
  {
    if actions != [] {
      StepKeepsSent(s, actions[0], c);
      RunKeepsSent(Step(s, actions[0]).value, actions[1..], c);
    }
  }

  /** Taking a close frame off the link takes its id out of the client's map, and nothing else. */
  lemma ClientTakesNotice(s: System, c: nat, id: uint64)
    requires Inv(s) && c < |s.sessions| && Wire(CloseFrame(id)) in s.sessions[c].egress.sent
    ensures var next := Step(s, ClientReceives(c, Wire(CloseFrame(id))));
            && (next.Some? <==> s.sessions[c].forwarder.Receiving?)
            && (next.Some? ==> next.value.ingress.open == s.ingress.open - {id} && next.value.sessions == s.sessions)
            && (next.Some? && I.Known(s.ingress, id) ==>
                  I.Known(next.value.ingress, id) && I.Stream(next.value.ingress, id).done)
  {
    LoopFramesArrive(CloseFrame(id));
    assert SessionOk(s, c);
    if I.Known(s.ingress, id) {
      assert I.StreamOk(s.ingress, id);
    }
  }

  /** A close with notice on the server puts the one close frame of the stream on the link at once. However the run
      goes on, the client can take it off whenever its forwarder is free, and then the stream is out of its map. */
  lemma ServerCloseReachesClient(actions: seq<Action>, a: Action, c: nat, id: uint64, more: seq<Action>)
    requires Execute(Start, actions).Some?
    requires var s := Execute(Start, actions).value;
             && ClosesWithNotice(s, a, c, id) && id in s.sessions[c].egress.open
             && Step(s, a).Some? && Execute(Step(s, a).value, more).Some?
    ensures var s := Execute(Start, actions).value;
            var s1 := Step(s, a).value;
            var s2 := Execute(s1, more).value;
            var k := s.sessions[c].egress.open[id];
            var close := Wire(CloseFrame(id));
            && c < |s1.sessions| && s1.sessions[c].egress.sent == s.sessions[c].egress.sent + {close}
            && k < |s1.sessions[c].egress.streams| && s1.sessions[c].egress.streams[k].closes == 1
            && c < |s2.sessions| && close in s2.sessions[c].egress.sent
            && I.Known(s2.ingress, id)
            && (s2.sessions[c].forwarder.Receiving? <==> Step(s2, ClientReceives(c, close)).Some?)
            && (s2.sessions[c].forwarder.Receiving? ==>
                  var i := Step(s2, ClientReceives(c, close)).value.ingress;
                  i.open == s2.ingress.open - {id} && I.Known(i, id) && I.Stream(i, id).done)
  {
    StartOk();
    RunKeeps(Start, actions);
    var s := Execute(Start, actions).value;
    var k := s.sessions[c].egress.open[id];
    EgressNotice(s.sessions[c].egress, a.e, id);
    assert SessionOk(s, c) && UpstreamOk(s, c, k);
    StepKeeps(s, a);
    RunKeeps(Step(s, a).value, more);
    RunKeepsSent(Step(s, a).value, more, c);
    ClientTakesNotice(Execute(Step(s, a).value, more).value, c, id);
  }

  // ----- from the client to the server

  function Forwards(c: nat, n: nat): seq<Action> { seq(n, _ => Forward(c, true)) }

  /** What n frames from the head of a channel put on the link. */
  function Written(q: seq<Frame>, n: nat): set<Bytes>
    requires n <= |q| && forall f :: f in q ==> LoopFrame(f)
  {
    set i | 0 <= i < n :: Wire(q[i])
  }

  lemma ForwardOne(s: System, c: nat)
    requires Inv(s) && c < |s.sessions| && s.ingress.channels[c].queue != []
    ensures var f := s.ingress.channels[c].queue[0];
            && LoopFrame(f)
            && Step(s, Forward(c, true)) ==
               Some(WithSession(s.(ingress := I.Pop(s.ingress, c)), c, s.sessions[c].(up := s.sessions[c].up + {Wire(f)})))
  {
    I.PopKeeps(s.ingress, c);
    LoopFramesArrive(s.ingress.channels[c].queue[0]);
  }

  lemma ForwardsFirst(s: System, c: nat) returns (s1: System)
    requires Inv(s) && c < |s.sessions| && s.ingress.channels[c].queue != []
    ensures Step(s, Forward(c, true)) == Some(s1) && Inv(s1) && c < |s1.sessions|
    ensures var q := s.ingress.channels[c].queue;
            && LoopFrame(q[0]) && s1.ingress.channels[c].queue == q[1..]
            && s1.sessions[c].up == s.sessions[c].up + {Wire(q[0])} && s1.sessions[c].egress == s.sessions[c].egress
  {
    ForwardOne(s, c);
    s1 := Step(s, Forward(c, true)).value;
    StepKeeps(s, Forward(c, true));
  }

  lemma ChannelFrames(s: System, c: nat)
    requires Inv(s) && c < |s.sessions|
    ensures forall f :: f in s.ingress.channels[c].queue ==> LoopFrame(f)
  {
    assert I.ChannelOk(s.ingress, c);
  }

  /** A channel is a queue: its forwarder puts the frames on the link in their order, none left out. */
  lemma {:induction false} ForwardsInOrder(s: System, c: nat, n: nat)
    requires Inv(s) && c < |s.sessions| && n <= |s.ingress.channels[c].queue|
    ensures forall f :: f in s.ingress.channels[c].queue ==> LoopFrame(f)
    ensures Execute(s, Forwards(c, n)).Some?
    ensures var q, s' := s.ingress.channels[c].queue, Execute(s, Forwards(c, n)).value;
            && Inv(s') && c < |s'.sessions| && s'.ingress.channels[c].queue == q[n..]
            && s'.sessions[c].up == s.sessions[c].up + Written(q, n)
            && s'.sessions[c].egress == s.sessions[c].egress
    decreases n
  {
    ChannelFrames(s, c);
    var q := s.ingress.channels[c].queue;
    if n > 0 {
      var s1 := ForwardsFirst(s, c);
      ForwardsInOrder(s1, c, n - 1);
      assert Forwards(c, n)[1..] == Forwards(c, n - 1);
      WrittenSplits(q, n);
    }
  }

  lemma WrittenSplits(q: seq<Frame>, n: nat)
    requires 0 < n <= |q| && forall f :: f in q ==> LoopFrame(f)
    ensures (forall f :: f in q[1..] ==> LoopFrame(f)) && Written(q, n) == {Wire(q[0])} + Written(q[1..], n - 1)
  {
    forall b | b in Written(q, n) ensures b in {Wire(q[0])} + Written(q[1..], n - 1) {
      var i :| 0 <= i < n && b == Wire(q[i]);
      assert i > 0 ==> q[i] == q[1..][i - 1];
    }
    forall b | b in Written(q[1..], n - 1) ensures b in Written(q, n) {
      var i :| 0 <= i < n - 1 && b == Wire(q[1..][i]);
      assert q[i + 1] == q[1..][i];
    }
  }

  /** A close frame that arrives takes its id out of the server's map, and is not answered. */
  lemma ServerTakesNotice(s: System, c: nat, id: uint64)
    requires Inv(s) && c < |s.sessions| && Wire(CloseFrame(id)) in s.sessions[c].up
    ensures var next, e := Step(s, ServerReceives(c, Wire(CloseFrame(id)))), s.sessions[c].egress;
            && (next.Some? <==> e.fault.None? && e.handling.None?)
            && (next.Some? ==>
                  var e' := next.value.sessions[c].egress;
                  && e'.open == e.open - {id} && e'.sent == e.sent && |e'.streams| == |e.streams|
                  && (id in e.open ==> e'.streams[e.open[id]].done && e'.streams[e.open[id]].closes == 0))
  {
    LoopFramesArrive(CloseFrame(id));
    var e := s.sessions[c].egress;
    if id in e.open {
      E.CloseExactly(e, id, false, false);
    }
  }

  /** A client goroutine gives notice for a stream, and the channel takes it. */
  predicate GivesNotice(s: System, a: Action, id: uint64) {
    && I.Known(s.ingress, id) && !I.Stream(s.ingress, id).notified
    && match a
       case OnIngress(OnReader(k, ReaderNotifies(sent))) => k == id && sent
       case OnIngress(OnWriter(k, WriterNotifies(sent))) => k == id && sent
       case ClientNotifies(c, sent) => c < |s.sessions| && s.sessions[c].forwarder == OverflowNotify(id) && sent
       case _ => false
  }

  lemma NoticeIsQueued(s: System, a: Action, id: uint64)
    requires Inv(s) && GivesNotice(s, a, id) && Step(s, a).Some?
    ensures var c, i' := I.Stream(s.ingress, id).channel, Step(s, a).value.ingress;
            && c < |s.ingress.channels| && c < |i'.channels| && I.Known(i', id)
            && i'.channels[c].queue == s.ingress.channels[c].queue + [CloseFrame(id)]
            && I.Stream(i', id).closes == 1 && I.Stream(i', id).notified
            && Step(s, a).value.sessions[c].egress == s.sessions[c].egress
  {
    var st := I.Stream(s.ingress, id);
    assert I.StreamOk(s.ingress, id);
    match a
    case OnIngress(OnReader(_, _)) => LoopNotice(s.ingress, id, st.(reader := I.ReaderClose));
    case OnIngress(OnWriter(_, _)) => LoopNotice(s.ingress, id, st.(writer := I.WriterClose));
    case ClientNotifies(_, _) => LoopNotice(s.ingress, id, st);
    case _ =>
  }

  lemma LoopNotice(i: I.Ingress, id: uint64, st: I.LocalStream)
    requires I.Inv(i) && I.Known(i, id) && !I.Stream(i, id).notified
    requires st == I.Stream(i, id) || st == I.Stream(i, id).(reader := I.ReaderClose) || st == I.Stream(i, id).(writer := I.WriterClose)
    requires !I.Idle(I.Stream(i, id)) || st == I.Stream(i, id)
    ensures var i', c := I.NotifyRemoteClose(I.With(i, id, st), id, true), I.Stream(i, id).channel;
            && c < |i.channels| && c < |i'.channels| && I.Known(i', id)
            && i'.channels[c].queue == i.channels[c].queue + [CloseFrame(id)]
            && I.Stream(i', id).closes == 1 && I.Stream(i', id).notified
  {
    assert I.StreamOk(i, id);
    I.WithKeeps(i, id, st);
    I.NotifyExactly(I.With(i, id, st), id, true);
  }

  /** The first notice for a stream goes to the end of its own channel. When the forwarder of that channel has written
      what it holds, the server can take the notice off the link, unless it failed or is busy with a data frame, and
      then the stream is out of its map. */
  lemma ClientCloseReachesServer(actions: seq<Action>, a: Action, id: uint64)
    requires Execute(Start, actions).Some?
    requires GivesNotice(Execute(Start, actions).value, a, id) && Step(Execute(Start, actions).value, a).Some?
    ensures var s := Execute(Start, actions).value;
            var s1 := Step(s, a).value;
            var c := I.Stream(s.ingress, id).channel;
            && c < |s.ingress.channels| && c < |s1.ingress.channels| && c < |s.sessions|
            && s1.ingress.channels[c].queue == s.ingress.channels[c].queue + [CloseFrame(id)]
            && var all := Execute(s1, Forwards(c, |s1.ingress.channels[c].queue|));
               && all.Some? && c < |all.value.sessions| && all.value.sessions[c].egress == s.sessions[c].egress
               && var close, e := Wire(CloseFrame(id)), s.sessions[c].egress;
                  var next := Step(all.value, ServerReceives(c, close));
                  && close in all.value.sessions[c].up
                  && (next.Some? <==> e.fault.None? && e.handling.None?)
                  && (next.Some? ==> next.value.sessions[c].egress.open == e.open - {id})
  {
    StartOk();
    RunKeeps(Start, actions);
    var s := Execute(Start, actions).value;
    var c := I.Stream(s.ingress, id).channel;
    NoticeIsQueued(s, a, id);
    StepKeeps(s, a);
    var s1 := Step(s, a).value;
    var q := s1.ingress.channels[c].queue;
    ForwardsInOrder(s1, c, |q|);
    var all := Execute(s1, Forwards(c, |q|)).value;
    assert q[|q| - 1] == CloseFrame(id) && Wire(q[|q| - 1]) in Written(q, |q|);
    ServerTakesNotice(all, c, id);
  }

  // ----- full queues

  /** A data frame for an open stream goes to the end of its queue as long as that holds fewer than eight frames. */
  lemma ClientQueuesExactly(s: System, c: nat, preferDone: bool)
    requires Inv(s) && Step(s, ClientQueues(c, preferDone)).Some? && s.sessions[c].forwarder.id in s.ingress.open
    ensures var id, f := s.sessions[c].forwarder.id, s.sessions[c].forwarder.frame;
            var s' := Step(s, ClientQueues(c, preferDone)).value;
            && I.Known(s.ingress, id) && I.Known(s'.ingress, id) && c < |s'.sessions|
            && var q, q' := I.Stream(s.ingress, id).receiver.inbound, I.Stream(s'.ingress, id).receiver.inbound;
               if |q| < 8 then q' == q + [f] && s'.sessions[c].forwarder == Receiving
               else q' == q && s'.sessions[c].forwarder == OverflowNotify(id)
  {
    assert I.StreamOk(s.ingress, s.sessions[c].forwarder.id);
  }

  lemma ServerQueuesExactly(e: E.Egress, preferDone: bool)
    requires E.Inv(e) && E.QueueInbound(e, preferDone).Some? && !e.streams[e.handling.value.0].done
    ensures var (k, f) := e.handling.value; var e' := E.QueueInbound(e, preferDone).value;
            && |e'.streams| == |e.streams| && e'.handling.None?
            && var q, q' := e.streams[k].receiver.inbound, e'.streams[k].receiver.inbound;
               if |q| < 8 then q' == q + [f] && e'.asyncCloses == e.asyncCloses
               else q' == q && e'.asyncCloses == e.asyncCloses + multiset{e.streams[k].id}
  {
  }

  /** From a full queue of stream id on: the forwarder has still to give notice, or to close, or the stream is closed
      and notice was given. */
  predicate OverflowGoesOn(s: System, c: nat, id: uint64) {
    && c < |s.sessions| && I.Known(s.ingress, id)
    && var pc := s.sessions[c].forwarder;
       || pc == OverflowNotify(id)
       || (I.Stream(s.ingress, id).notified && (pc == OverflowClose(id) || id !in s.ingress.open))
  }

  lemma OverflowStep(s: System, a: Action, c: nat, id: uint64)
    requires Inv(s) && OverflowGoesOn(s, c, id) && Step(s, a).Some?
    ensures OverflowGoesOn(Step(s, a).value, c, id)
  {
    StepKeeps(s, a);
    assert I.StreamOk(s.ingress, id);
    var s' := Step(s, a).value;
    if a.ClientNotifies? && a.c == c && s.sessions[c].forwarder == OverflowNotify(id) {
      I.NotifyExactly(s.ingress, id, a.sent);
    } else if s.sessions[c].forwarder.OverflowNotify? || s.sessions[c].forwarder.OverflowClose? {
      BusyForwarder(s, a, c);
    }
  }

  /** A forwarder that handles a full queue takes no datagram until it has closed the stream. */
  lemma BusyForwarder(s: System, a: Action, c: nat)
    requires Step(s, a).Some? && c < |s.sessions|
    requires s.sessions[c].forwarder.OverflowNotify? || s.sessions[c].forwarder.OverflowClose?
    ensures var s', pc := Step(s, a).value, s.sessions[c].forwarder;
            && c < |s'.sessions|
            && (if a == ClientCloses(c) then s'.ingress == I.CloseStream(s.ingress, pc.id)
                else s'.sessions[c].forwarder == pc || (a.ClientNotifies? && a.c == c && s'.sessions[c].forwarder == OverflowClose(pc.id)))
  {
    match a
    case ClientQueues(_, _) =>
    case ClientNotifies(_, _) =>
    case ClientCloses(_) =>
    case _ =>
  }

  lemma {:induction false} OverflowRun(s: System, more: seq<Action>, c: nat, id: uint64)
    requires Inv(s) && OverflowGoesOn(s, c, id) && Execute(s, more).Some?
    ensures OverflowGoesOn(Execute(s, more).value, c, id)
    decreases |more|
  {
    if more != [] {
      StepKeeps(s, more[0]);
      OverflowStep(s, more[0], c, id);
      OverflowRun(Step(s, more[0]).value, more[1..], c, id);
    }
  }

  /** A frame for a stream whose queue is full is not just dropped: before the client takes another datagram from that
      worker, notice was given and the stream is closed. */
  lemma ClientOverflowCloses(actions: seq<Action>, c: nat, preferDone: bool, more: seq<Action>)
    requires Execute(Start, actions).Some?
    requires var s := Execute(Start, actions).value;
             && c < |s.sessions| && s.sessions[c].forwarder.Queueing? && I.Known(s.ingress, s.sessions[c].forwarder.id)
             && |I.Stream(s.ingress, s.sessions[c].forwarder.id).receiver.inbound| >= INBOUND_QUEUE_SIZE
             && s.sessions[c].forwarder.id in s.ingress.open
             && Step(s, ClientQueues(c, preferDone)).Some? && Execute(Step(s, ClientQueues(c, preferDone)).value, more).Some?
    ensures var id := Execute(Start, actions).value.sessions[c].forwarder.id;
            var s2 := Execute(Step(Execute(Start, actions).value, ClientQueues(c, preferDone)).value, more).value;
            && c < |s2.sessions| && I.Known(s2.ingress, id)
            && (s2.sessions[c].forwarder.Receiving? ==> id !in s2.ingress.open && I.Stream(s2.ingress, id).notified)
  {
    StartOk();
    RunKeeps(Start, actions);
    var s := Execute(Start, actions).value;
    var id := s.sessions[c].forwarder.id;
    assert I.StreamOk(s.ingress, id);
    StepKeeps(s, ClientQueues(c, preferDone));
    OverflowRun(Step(s, ClientQueues(c, preferDone)).value, more, c, id);
  }

  /** On the server the closing is left to a goroutine: it is still to come, or the stream is closed. */
  predicate WillClose(e: E.Egress, k: nat) {
    k < |e.streams| && (e.streams[k].done || e.streams[k].id in e.asyncCloses)
  }

  lemma WillCloseStep(e: E.Egress, a: E.Action, k: nat)
    requires E.Inv(e) && E.Step(e, a).Some? && WillClose(e, k)
    ensures WillClose(E.Step(e, a).value, k)
  {
    E.StepKeeps(e, a);
    match a
    case AsyncClose(id, written) => AsyncCloseCloses(e, id, written, k);
    case OnStream(j, s) => StreamStepKeepsAsync(e, j, s);
    case Queue(preferDone) => QueueAddsAsync(e, preferDone);
    case CloseCollected(id) => ClosingKeepsAsync(e.(closing := e.closing - {id}), id, false, false);
    case _ =>
  }

  lemma AsyncCloseCloses(e: E.Egress, id: uint64, written: bool, k: nat)
    requires E.Inv(e) && id in e.asyncCloses && WillClose(e, k)
    ensures WillClose(E.Step(e, E.AsyncClose(id, written)).value, k)
  {
    var m := e.(asyncCloses := e.asyncCloses - multiset{id});
    E.SameStreams(e, m);
    E.CloseKeeps(m, id, true, written);
    ClosingKeepsAsync(m, id, true, written);
    if !e.streams[k].done && e.streams[k].id == id {
      assert E.StreamOk(e, k) && E.Mapped(e, k);
      E.CloseExactly(m, id, true, written);
    }
  }

  lemma ClosingKeepsAsync(e: E.Egress, id: uint64, notify: bool, written: bool)
    ensures E.CloseStream(e, id, notify, written).asyncCloses == e.asyncCloses
  {
  }

  lemma QueueAddsAsync(e: E.Egress, preferDone: bool)
    requires E.QueueInbound(e, preferDone).Some?
    ensures forall id :: id in e.asyncCloses ==> id in E.QueueInbound(e, preferDone).value.asyncCloses
  {
  }

  lemma StreamStepKeepsAsync(e: E.Egress, k: nat, s: E.StreamAction)
    requires k < |e.streams| && E.StreamStep(e, k, s).Some?
    ensures E.StreamStep(e, k, s).value.asyncCloses == e.asyncCloses
  {
  }

  lemma ReceiveKeepsAsync(e: E.Egress, b: Bytes)
    ensures E.ReceiveFrame(e, b).asyncCloses == e.asyncCloses
  {
  }

  lemma WillCloseSystemStep(s: System, a: Action, c: nat, k: nat)
    requires Inv(s) && Step(s, a).Some? && c < |s.sessions| && WillClose(s.sessions[c].egress, k)
    ensures c < |Step(s, a).value.sessions| && WillClose(Step(s, a).value.sessions[c].egress, k)
  {
    var e := s.sessions[c].egress;
    if a.OnEgress? && a.c == c {
      WillCloseStep(e, a.e, k);
    } else if a.ServerReceives? && a.c == c {
      E.ReceiveKeeps(e, a.datagram);
      ReceiveKeepsAsync(e, a.datagram);
    } else {
      OtherEgress(s, a, c);
    }
  }

  lemma OtherEgress(s: System, a: Action, c: nat)
    requires Step(s, a).Some? && c < |s.sessions| && !(a.OnEgress? && a.c == c) && !(a.ServerReceives? && a.c == c)
    ensures c < |Step(s, a).value.sessions| && Step(s, a).value.sessions[c].egress == s.sessions[c].egress
  {
  }

  lemma {:induction false} WillCloseRun(s: System, more: seq<Action>, c: nat, k: nat)
    requires Inv(s) && Execute(s, more).Some? && c < |s.sessions| && WillClose(s.sessions[c].egress, k)
    ensures c < |Execute(s, more).value.sessions| && WillClose(Execute(s, more).value.sessions[c].egress, k)
    decreases |more|
  {
    if more != [] {
      StepKeeps(s, more[0]);
      WillCloseSystemStep(s, more[0], c, k);
      WillCloseRun(Step(s, more[0]).value, more[1..], c, k);
    }
  }

  predicate HandlesOverflow(e: E.Egress) {
    e.handling.Some? && e.handling.value.0 < |e.streams| &&
    |e.streams[e.handling.value.0].receiver.inbound| >= INBOUND_QUEUE_SIZE
  }

  /** A frame for an upstream stream whose queue is full is not just dropped: from then on, in every run, the stream is
      closed or a goroutine that closes it with notice has yet to run. */
  lemma ServerOverflowCloses(actions: seq<Action>, c: nat, preferDone: bool, more: seq<Action>)
    requires Execute(Start, actions).Some?
    requires var s := Execute(Start, actions).value;
             && c < |s.sessions| && HandlesOverflow(s.sessions[c].egress)
             && Step(s, OnEgress(c, E.Queue(preferDone))).Some?
             && Execute(Step(s, OnEgress(c, E.Queue(preferDone))).value, more).Some?
    ensures var k := Execute(Start, actions).value.sessions[c].egress.handling.value.0;
            var s2 := Execute(Step(Execute(Start, actions).value, OnEgress(c, E.Queue(preferDone))).value, more).value;
            c < |s2.sessions| && WillClose(s2.sessions[c].egress, k)
  {
    StartOk();
    RunKeeps(Start, actions);
    var s := Execute(Start, actions).value;
    StepKeeps(s, OnEgress(c, E.Queue(preferDone)));
    WillCloseRun(Step(s, OnEgress(c, E.Queue(preferDone))).value, more, c, s.sessions[c].egress.handling.value.0);
  }
}
