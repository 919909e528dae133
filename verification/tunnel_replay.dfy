/** Why the way back needs open frames to arrive at most once: a run in which one is replayed after its
    stream was closed, and in which the local connection receives bytes of two upstream connections. */
module TunnelReplay {
  import opened Wrappers
  import opened Frames
  import opened Streams
  import opened Tunnel
  import I = TcpIngress
  import E = TcpEgress

  lemma {:induction false} ExecuteConcat(s: System, xs: seq<Action>, ys: seq<Action>)
    requires Execute(s, xs).Some?
    ensures Execute(s, xs + ys) == Execute(Execute(s, xs).value, ys)
    decreases |xs|
  {
    if xs == [] {
      assert xs + ys == ys;
    } else {
      assert (xs + ys)[1..] == xs[1..] + ys;
      ExecuteConcat(Step(s, xs[0]).value, xs[1..], ys);
    }
  }

  lemma OneMore(s: System, xs: seq<Action>, a: Action)
    requires Execute(s, xs).Some? && Step(Execute(s, xs).value, a).Some?
    ensures Execute(s, xs + [a]) == Step(Execute(s, xs).value, a)
  {
    ExecuteConcat(s, xs, [a]);
    var m := Execute(s, xs).value;
    assert Execute(m, [a]) == Execute(Step(m, a).value, [a][1..]);
  }

  const OPEN := Wire(OpenFrame(1))
  const FIRST := Wire(DataFrame(1, 0, [1]))
  const SECOND := Wire(DataFrame(1, 0, [2]))
  const THIRD := Wire(DataFrame(1, 1, [3]))

  /** One stream opened by the client, its open frame on the link. */
  function Opened(receiver: Receiver): I.Ingress {
    I.Ingress([I.Fresh(0, 0).(reader := I.ReadLocal, writer := I.WriterLoop, receiver := receiver)], {1},
              [I.Channel(0, [])], None, false, {})
  }

  function At(i: I.Ingress, e: E.Egress, pc: ForwarderPc): System {
    System(i, [Session(e, {OPEN}, pc, false)])
  }

  /** An upstream stream that was dialled and whose connection gave some chunks. */
  function Upstream(opening: nat, sender: Sender): E.UpstreamStream {
    E.Fresh(1, opening).(sender := sender, dial := E.Dialed, reader := E.ReadUpstream, writer := E.WriterLoop)
  }

  function Closed(opening: nat, sender: Sender): E.UpstreamStream {
    Upstream(opening, sender).(dial := E.RunDone, reader := E.ReaderDone, writer := E.WriterDone, done := true)
  }

  const ONE := Sender(1, [1], [[1]])
  const TWO := Sender(1, [2], [[2]])
  const BOTH := Sender(2, [2, 3], [[2], [3]])

  lemma Chunks()
    ensures Chunked(NewSender, [1]) == ONE && Chunked(NewSender, [2]) == TWO && Chunked(TWO, [3]) == BOTH
  {
    assert NewSender.consumed + [1] == [1] && NewSender.consumed + [2] == [2] && TWO.consumed + [3] == [2, 3];
    assert NewSender.chunks + [[1]] == [[1]] && NewSender.chunks + [[2]] == [[2]] && TWO.chunks + [[3]] == [[2], [3]];
  }

  function AfterFirst(): E.Egress {
    E.Empty.(streams := [Closed(0, ONE)], openings := [1], sent := {FIRST})
  }

  function AfterReplay(): E.Egress {
    E.Empty.(streams := [Closed(0, ONE), Upstream(1, BOTH)], open := map[1 := 1], openings := [1, 1],
             sent := {FIRST, SECOND, THIRD})
  }

  lemma FramesArrive()
    ensures ReadDatagram(OPEN) == Ok(OpenFrame(1)) && MarshalBinary(OpenFrame(1)) == Frames.Ok(OPEN)
    ensures ReadDatagram(FIRST) == Ok(DataFrame(1, 0, [1]))
    ensures ReadDatagram(THIRD) == Ok(DataFrame(1, 1, [3]))
  {
    LoopFramesArrive(OpenFrame(1));
    LoopFramesArrive(DataFrame(1, 0, [1]));
    LoopFramesArrive(DataFrame(1, 1, [3]));
  }

  lemma ClientAccepts() returns (run: seq<Action>, s: System)
    ensures s == System(I.Ingress([I.Fresh(0, 0)], {1}, [I.Channel(0, [])], Some(1), false, {}),
                        [Session(E.Empty, {}, Receiving, false)])
    ensures Execute(Start, run) == Some(s)
  {
    run := Do([], Start, NewSession(0));
    var s1 := System(I.Empty.(channels := [I.Channel(0, [])]), [Session(E.Empty, {}, Receiving, false)]);
    assert Start.ingress.channels + s1.ingress.channels == s1.ingress.channels;
    assert Start.sessions + s1.sessions == s1.sessions;
    run := Do(run, s1, OnIngress(I.Accept(0)));
    s := s1.(ingress := I.Ingress([I.Fresh(0, 0)], {1}, [I.Channel(0, [])], Some(1), false, {}));
    assert s1.ingress.streams + s.ingress.streams == s.ingress.streams;
    assert s1.ingress.open + {1} == {1};
  }

  lemma ClientOpens() returns (run: seq<Action>)
    ensures Execute(Start, run) == Some(At(Opened(NewReceiver), E.Empty, Receiving))
  {
    FramesArrive();
    var s2;
    run, s2 := ClientAccepts();
    run := Do(run, s2, OnIngress(I.OpenSend(true)));
    var s3 := s2.(ingress := Opened(NewReceiver).(channels := [I.Channel(0, [OpenFrame(1)])]));
    assert s2.ingress.channels[0].queue + [OpenFrame(1)] == [OpenFrame(1)];
    Replaced(s2.ingress.channels[0], s3.ingress.channels[0]);
    Replaced(s2.ingress.streams[0], s3.ingress.streams[0]);
    assert Execute(Start, run) == Some(s3);
    run := ClientForwards(run, s3);
  }

  lemma ClientForwards(run0: seq<Action>, s: System) returns (run: seq<Action>)
    requires s == System(Opened(NewReceiver).(channels := [I.Channel(0, [OpenFrame(1)])]),
                         [Session(E.Empty, {}, Receiving, false)])
    requires Execute(Start, run0) == Some(s)
    ensures Execute(Start, run) == Some(At(Opened(NewReceiver), E.Empty, Receiving))
  {
    FramesArrive();
    run := Do(run0, s, Forward(0, true));
    assert s.ingress.channels[0].queue[1..] == [];
    Replaced(s.ingress.channels[0], I.Channel(0, []));
    assert s.sessions[0].up + {OPEN} == {OPEN};
    Replaced(s.sessions[0], s.sessions[0].(up := {OPEN}));
  }

  /** Appends one action to a run. */
  lemma Do(run: seq<Action>, s: System, a: Action) returns (longer: seq<Action>)
    requires Execute(Start, run) == Some(s) && Step(s, a).Some?
    ensures Execute(Start, longer) == Step(s, a)
  {
    OneMore(Start, run, a);
    longer := run + [a];
  }

  lemma ServerAct(run: seq<Action>, e: E.Egress, k: nat, a: E.StreamAction, e': E.Egress) returns (longer: seq<Action>)
    requires Execute(Start, run) == Some(At(Opened(NewReceiver), e, Receiving))
    requires k < |e.streams| && E.StreamStep(e, k, a).Some?
    requires var r := E.StreamStep(e, k, a).value;
             && r.streams == e'.streams && r.open == e'.open && r.sent == e'.sent
             && r == e'.(streams := r.streams, open := r.open, sent := r.sent)
    ensures Execute(Start, longer) == Some(At(Opened(NewReceiver), e', Receiving))
  {
    var s := At(Opened(NewReceiver), e, Receiving);
    longer := Do(run, s, OnEgress(0, E.OnStream(k, a)));
    Replaced(s.sessions[0], s.sessions[0].(egress := e'));
  }

  lemma Replaced<T>(x: T, y: T)
    ensures [x][0 := y] == [y]
  {
  }

  lemma ServerOpens(run: seq<Action>, e: E.Egress) returns (longer: seq<Action>, e': E.Egress)
    requires Execute(Start, run) == Some(At(Opened(NewReceiver), e, Receiving))
    requires 1 !in e.open && e.fault.None? && e.handling.None?
    ensures e' == e.(streams := e.streams + [E.Fresh(1, |e.openings|)], open := e.open[1 := |e.streams|],
                     openings := e.openings + [1])
    ensures Execute(Start, longer) == Some(At(Opened(NewReceiver), e', Receiving))
  {
    FramesArrive();
    var s := At(Opened(NewReceiver), e, Receiving);
    longer := Do(run, s, ServerReceives(0, OPEN));
    e' := E.ReceiveFrame(e, OPEN);
    Replaced(s.sessions[0], s.sessions[0].(egress := e'));
  }

  /** A new upstream connection gives one chunk, and its frame is written back. */
  lemma OneChunk(run0: seq<Action>, e: E.Egress, k: nat, data: Bytes, failed: bool) returns (run: seq<Action>, e': E.Egress)
    requires Execute(Start, run0) == Some(At(Opened(NewReceiver), e, Receiving)) && !e.cancelled
    requires k < |e.streams| && 1 <= |data| <= 2 && e.streams[k].sender.sequence < 2
    requires e.streams[k] == Upstream(e.streams[k].opening, e.streams[k].sender)
    ensures var st := e.streams[k];
            var s := Chunked(st.sender, data);
            e' == e.(streams := e.streams[k := Upstream(st.opening, s).(reader := if failed then E.ReaderDone else E.ReadUpstream)],
                     sent := e.sent + {Wire(DataFrame(1, st.sender.sequence, data))})
    ensures Execute(Start, run) == Some(At(Opened(NewReceiver), e', Receiving))
  {
    var st := e.streams[k];
    var s, f := Chunked(st.sender, data), DataFrame(1, st.sender.sequence, data);
    var e1 := E.With(e, k, st.(sender := s, reader := E.WriteBack(f, failed)));
    run := ServerAct(run0, e, k, E.Read(data, failed), e1);
    e' := E.With(e, k, st.(sender := s, reader := if failed then E.ReaderDone else E.ReadUpstream)).(sent := e.sent + {Wire(f)});
    run := ServerAct(run, e1, k, E.WriteFrame(true), e');
  }

  lemma FirstConnection(run0: seq<Action>) returns (run: seq<Action>)
    requires Execute(Start, run0) == Some(At(Opened(NewReceiver), E.Empty, Receiving))
    ensures Execute(Start, run) == Some(At(Opened(NewReceiver), AfterFirst(), Receiving))
  {
    Chunks();
    var e;
    run, e := ServerOpens(run0, E.Empty);
    var e1 := e.(streams := [Upstream(0, NewSender)]);
    run := ServerAct(run, e, 0, E.Dial(true), e1);
    var e2;
    run, e2 := OneChunk(run, e1, 0, [1], true);
    Replaced(e1.streams[0], e2.streams[0]);
    assert e1.sent + {FIRST} == {FIRST};
    run := FirstCloses(run, e2);
  }

  lemma FirstCloses(run0: seq<Action>, e: E.Egress) returns (run: seq<Action>)
    requires e == E.Empty.(streams := [Upstream(0, ONE).(reader := E.ReaderDone)], open := map[1 := 0], openings := [1],
                           sent := {FIRST})
    requires Execute(Start, run0) == Some(At(Opened(NewReceiver), e, Receiving))
    ensures Execute(Start, run) == Some(At(Opened(NewReceiver), AfterFirst(), Receiving))
  {
    var e4 := e.(streams := [e.streams[0].(writer := E.WriterDone)]);
    run := ServerAct(run0, e, 0, E.WriterExits, e4);
    var e5 := e4.(streams := [e4.streams[0].(dial := E.RunClosing)]);
    run := ServerAct(run, e4, 0, E.RunReturns, e5);
    assert e5.open - {1} == map[];
    run := ServerAct(run, e5, 0, E.RunCloses(false), AfterFirst());
  }

  lemma ReplayedConnection(run0: seq<Action>) returns (run: seq<Action>)
    requires Execute(Start, run0) == Some(At(Opened(NewReceiver), AfterFirst(), Receiving))
    ensures Execute(Start, run) == Some(At(Opened(NewReceiver), AfterReplay(), Receiving))
  {
    Chunks();
    var e;
    run, e := ServerOpens(run0, AfterFirst());
    var st := Closed(0, ONE);
    var e1 := e.(streams := [st, Upstream(1, NewSender)]);
    run := ServerAct(run, e, 1, E.Dial(true), e1);
    var e2, e3;
    run, e2 := OneChunk(run, e1, 1, [2], false);
    assert e2.streams == [st, Upstream(1, TWO)] && e2.sent == {FIRST, SECOND};
    run, e3 := OneChunk(run, e2, 1, [3], false);
    assert e3.streams == [st, Upstream(1, BOTH)] && e3.sent == {FIRST, SECOND, THIRD};
    assert e3.open == map[1 := 1] && e3.openings == [1, 1];
  }

  predicate NextFor(e: E.Egress, r: Receiver, f: Frame) {
    r.inbound == [] && f.kind == STREAM_DATA && f.streamID == 1 && f.sequence == r.sequence && LoopFrame(f) &&
    Wire(f) in e.sent && ReadDatagram(Wire(f)) == Ok(f)
  }

  lemma ClientReads(run0: seq<Action>, e: E.Egress, r: Receiver, f: Frame) returns (run: seq<Action>)
    requires Execute(Start, run0) == Some(At(Opened(r), e, Receiving)) && NextFor(e, r, f)
    ensures Execute(Start, run) == Some(At(Opened(r), e, Queueing(f.streamID, f)))
  {
    var s0 := At(Opened(r), e, Receiving);
    run := Do(run0, s0, ClientReceives(0, Wire(f)));
    Replaced(s0.sessions[0], s0.sessions[0].(forwarder := Queueing(f.streamID, f)));
  }

  lemma ClientQueuesFrame(run0: seq<Action>, e: E.Egress, r: Receiver, f: Frame) returns (run: seq<Action>)
    requires Execute(Start, run0) == Some(At(Opened(r), e, Queueing(f.streamID, f))) && NextFor(e, r, f)
    ensures Execute(Start, run) == Some(At(Opened(r.(inbound := [f])), e, Receiving))
  {
    var s1 := At(Opened(r), e, Queueing(f.streamID, f));
    run := Do(run0, s1, ClientQueues(0, false));
    assert Queued(r, f) == r.(inbound := [f]);
    Replaced(s1.sessions[0], s1.sessions[0].(forwarder := Receiving));
    Replaced(s1.ingress.streams[0], s1.ingress.streams[0].(receiver := Queued(r, f)));
  }

  lemma WriteTurn(r: Receiver, f: Frame)
    requires f.kind == STREAM_DATA && f.sequence == r.sequence && r.inbound == [f]
    ensures var r' := Receiver([], r.sequence + 1, r.produced + f.payload);
            I.Step(Opened(r), I.OnWriter(1, I.Write(|f.payload|, false))) == Some(Opened(r'))
  {
    assert r.inbound[1..] == [] && f.payload[..|f.payload|] == f.payload;
    Replaced(Opened(r).streams[0], Opened(Receiver([], r.sequence + 1, r.produced + f.payload)).streams[0]);
  }

  lemma ClientWrites(run0: seq<Action>, e: E.Egress, r: Receiver, f: Frame) returns (run: seq<Action>)
    requires Execute(Start, run0) == Some(At(Opened(r.(inbound := [f])), e, Receiving)) && NextFor(e, r, f)
    ensures Execute(Start, run) == Some(At(Opened(Receiver([], r.sequence + 1, r.produced + f.payload)), e, Receiving))
  {
    WriteTurn(r.(inbound := [f]), f);
    run := Do(run0, At(Opened(r.(inbound := [f])), e, Receiving), OnIngress(I.OnWriter(1, I.Write(|f.payload|, false))));
  }

  lemma ClientTakes(run0: seq<Action>, e: E.Egress, r: Receiver, f: Frame) returns (run: seq<Action>)
    requires Execute(Start, run0) == Some(At(Opened(r), e, Receiving)) && NextFor(e, r, f)
    ensures Execute(Start, run) == Some(At(Opened(Receiver([], r.sequence + 1, r.produced + f.payload)), e, Receiving))
  {
    run := ClientReads(run0, e, r, f);
    run := ClientQueuesFrame(run, e, r, f);
    run := ClientWrites(run, e, r, f);
  }

  lemma FramesWait()
    ensures NextFor(AfterReplay(), NewReceiver, DataFrame(1, 0, [1]))
    ensures NextFor(AfterReplay(), Receiver([], 1, [1]), DataFrame(1, 1, [3]))
  {
    FramesArrive();
  }

  /** One session that got an open frame twice, and local bytes that are a prefix of no upstream's bytes. */
  predicate Mixed(s: System) {
    && |s.sessions| == 1 && I.Known(s.ingress, 1)
    && E.Repeats(s.sessions[0].egress.openings)
    && forall k :: 0 <= k < |s.sessions[0].egress.streams| ==>
         !(I.Stream(s.ingress, 1).receiver.produced <= s.sessions[0].egress.streams[k].sender.consumed)
  }

  lemma EndsMixed()
    ensures Mixed(At(Opened(Receiver([], 2, [1, 3])), AfterReplay(), Receiving))
  {
    var e := AfterReplay();
    var produced: Bytes := [1, 3];
    assert e.openings[0] == e.openings[1];
    assert produced[0] != e.streams[1].sender.consumed[0];
  }

  lemma ClientTakesFirst(run0: seq<Action>) returns (run: seq<Action>)
    requires Execute(Start, run0) == Some(At(Opened(NewReceiver), AfterReplay(), Receiving))
    ensures Execute(Start, run) == Some(At(Opened(Receiver([], 1, [1])), AfterReplay(), Receiving))
  {
    FramesWait();
    run := ClientTakes(run0, AfterReplay(), NewReceiver, DataFrame(1, 0, [1]));
    assert NewReceiver.produced + [1] == [1];
  }

  lemma ClientTakesSecond(run0: seq<Action>) returns (run: seq<Action>)
    requires Execute(Start, run0) == Some(At(Opened(Receiver([], 1, [1])), AfterReplay(), Receiving))
    ensures Execute(Start, run) == Some(At(Opened(Receiver([], 2, [1, 3])), AfterReplay(), Receiving))
  {
    FramesWait();
    run := ClientTakes(run0, AfterReplay(), Receiver([], 1, [1]), DataFrame(1, 1, [3]));
    assert [1] + [3] == [1, 3];
  }

  /** A replayed open frame can end in bytes on the local connection that are a prefix of no upstream's bytes. */
  lemma ReplayedOpenMixesStreams() returns (run: seq<Action>)
    ensures Execute(Start, run).Some? && Mixed(Execute(Start, run).value)
  {
    run := ClientOpens();
    run := FirstConnection(run);
    run := ReplayedConnection(run);
    run := ClientTakesFirst(run);
    run := ClientTakesSecond(run);
    EndsMixed();
  }
}
