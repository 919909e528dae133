/** What the tunnel can do when nothing is lost: the prefix that safety promises may be everything. */
module TunnelDelivery {
  import opened Wrappers
  import opened Frames
  import opened Streams
  import opened Tunnel
  import opened TunnelReplay
  import I = TcpIngress
  import E = TcpEgress

  /** One stream between one local and one upstream connection, in the middle of handing a chunk over. */
  function Flowing(s: Sender, reader: I.ReaderPc, queue: seq<Frame>, up: set<Bytes>, r: Receiver, handling: Option<(nat, Frame)>): System {
    System(I.Ingress([I.Fresh(0, 0).(reader := reader, writer := I.WriterLoop, sender := s)], {1}, [I.Channel(0, queue)], None, false, {}),
           [Session(E.Empty.(streams := [Upstream(0, NewSender).(receiver := r)], open := map[1 := 0], openings := [1], handling := handling),
                    up, Receiving, false)])
  }

  function Steady(s: Sender, up: set<Bytes>, r: Receiver): System { Flowing(s, I.ReadLocal, [], up, r, None) }

  lemma Connects() returns (run: seq<Action>)
    ensures Execute(Start, run) == Some(Steady(NewSender, {OPEN}, NewReceiver))
  {
    run := ClientOpens();
    var e;
    run, e := ServerOpens(run, E.Empty);
    var e1 := e.(streams := [Upstream(0, NewSender)]);
    run := ServerAct(run, e, 0, E.Dial(true), e1);
    assert e1 == E.Empty.(streams := [Upstream(0, NewSender)], open := map[1 := 0], openings := [1]);
  }

  lemma ClientReadsChunk(run0: seq<Action>, s: Sender, up: set<Bytes>, r: Receiver, data: Bytes) returns (run: seq<Action>)
    requires Execute(Start, run0) == Some(Steady(s, up, r))
    requires 0 < |data| <= STREAM_CHUNK_SIZE && s.sequence + 1 < UINT64_LIMIT
    ensures Execute(Start, run) == Some(Flowing(Chunked(s, data), I.SendData(DataFrame(1, s.sequence, data), false), [], up, r, None))
  {
    var s1 := Flowing(Chunked(s, data), I.SendData(DataFrame(1, s.sequence, data), false), [], up, r, None);
    run := Do(run0, Steady(s, up, r), OnIngress(I.OnReader(1, I.Read(data, false))));
    Replaced(Steady(s, up, r).ingress.streams[0], s1.ingress.streams[0]);
  }

  lemma ClientSendsChunk(run0: seq<Action>, s: Sender, up: set<Bytes>, r: Receiver, f: Frame) returns (run: seq<Action>)
    requires Execute(Start, run0) == Some(Flowing(s, I.SendData(f, false), [], up, r, None))
    ensures Execute(Start, run) == Some(Flowing(s, I.ReadLocal, [f], up, r, None))
  {
    var s1, s2 := Flowing(s, I.SendData(f, false), [], up, r, None), Flowing(s, I.ReadLocal, [f], up, r, None);
    run := Do(run0, s1, OnIngress(I.OnReader(1, I.Send(true))));
    assert s1.ingress.channels[0].queue + [f] == [f];
    Replaced(s1.ingress.streams[0], s2.ingress.streams[0]);
    Replaced(s1.ingress.channels[0], s2.ingress.channels[0]);
  }

  lemma ClientWritesLink(run0: seq<Action>, s: Sender, up: set<Bytes>, r: Receiver, f: Frame) returns (run: seq<Action>)
    requires Execute(Start, run0) == Some(Flowing(s, I.ReadLocal, [f], up, r, None)) && LoopFrame(f)
    ensures Execute(Start, run) == Some(Steady(s, up + {Wire(f)}, r))
  {
    LoopFramesArrive(f);
    var s0, s1 := Flowing(s, I.ReadLocal, [f], up, r, None), Steady(s, up + {Wire(f)}, r);
    run := Do(run0, s0, Forward(0, true));
    assert [f][1..] == [];
    Replaced(s0.ingress.channels[0], s1.ingress.channels[0]);
    Replaced(s0.sessions[0], s1.sessions[0]);
  }

  lemma ServerReads(run0: seq<Action>, s: Sender, up: set<Bytes>, r: Receiver, f: Frame) returns (run: seq<Action>)
    requires Execute(Start, run0) == Some(Steady(s, up, r))
    requires LoopFrame(f) && f.kind == STREAM_DATA && f.streamID == 1 && Wire(f) in up
    ensures Execute(Start, run) == Some(Flowing(s, I.ReadLocal, [], up, r, Some((0, f))))
  {
    LoopFramesArrive(f);
    run := Do(run0, Steady(s, up, r), ServerReceives(0, Wire(f)));
    Replaced(Steady(s, up, r).sessions[0], Flowing(s, I.ReadLocal, [], up, r, Some((0, f))).sessions[0]);
  }

  lemma ServerQueues(run0: seq<Action>, s: Sender, up: set<Bytes>, r: Receiver, f: Frame) returns (run: seq<Action>)
    requires Execute(Start, run0) == Some(Flowing(s, I.ReadLocal, [], up, r, Some((0, f)))) && r.inbound == []
    ensures Execute(Start, run) == Some(Steady(s, up, r.(inbound := [f])))
  {
    var s0, s1 := Flowing(s, I.ReadLocal, [], up, r, Some((0, f))), Steady(s, up, r.(inbound := [f]));
    run := Do(run0, s0, OnEgress(0, E.Queue(false)));
    assert Queued(r, f) == r.(inbound := [f]);
    Replaced(s0.sessions[0].egress.streams[0], s1.sessions[0].egress.streams[0]);
    Replaced(s0.sessions[0], s1.sessions[0]);
  }

  lemma ServerWrites(run0: seq<Action>, s: Sender, up: set<Bytes>, r: Receiver, f: Frame) returns (run: seq<Action>)
    requires Execute(Start, run0) == Some(Steady(s, up, r.(inbound := [f]))) && f.kind == STREAM_DATA && f.sequence == r.sequence
    ensures Execute(Start, run) == Some(Steady(s, up, Receiver([], r.sequence + 1, r.produced + f.payload)))
  {
    var s1, s2 := Steady(s, up, r.(inbound := [f])), Steady(s, up, Receiver([], r.sequence + 1, r.produced + f.payload));
    run := Do(run0, s1, OnEgress(0, E.OnStream(0, E.Write(|f.payload|, false))));
    assert [f][1..] == [] && f.payload[..|f.payload|] == f.payload;
    Replaced(s1.sessions[0].egress.streams[0], s2.sessions[0].egress.streams[0]);
    Replaced(s1.sessions[0], s2.sessions[0]);
  }

  lemma OneMoreChunk(run0: seq<Action>, s: Sender, up0: set<Bytes>, r: Receiver, data: Bytes)
    returns (run: seq<Action>, up: set<Bytes>)
    requires Execute(Start, run0) == Some(Steady(s, up0, r)) && r.inbound == [] && r.sequence == s.sequence
    requires 0 < |data| <= STREAM_CHUNK_SIZE && s.sequence + 1 < UINT64_LIMIT
    ensures Execute(Start, run) == Some(Steady(Chunked(s, data), up, Receiver([], r.sequence + 1, r.produced + data)))
  {
    var f := DataFrame(1, s.sequence, data);
    run := ClientReadsChunk(run0, s, up0, r, data);
    run := ClientSendsChunk(run, Chunked(s, data), up0, r, f);
    run := ClientWritesLink(run, Chunked(s, data), up0, r, f);
    up := up0 + {Wire(f)};
    run := ServerReads(run, Chunked(s, data), up, r, f);
    run := ServerQueues(run, Chunked(s, data), up, r, f);
    run := ServerWrites(run, Chunked(s, data), up, r, f);
  }

  /** All the bytes of the chunks were read here and written there. */
  function Delivered(chunks: seq<Bytes>, up: set<Bytes>): System {
    Steady(Sender(|chunks|, Concat(chunks), chunks), up, Receiver([], |chunks|, Concat(chunks)))
  }

  lemma DeliverOneMore(run0: seq<Action>, before: seq<Bytes>, up0: set<Bytes>, data: Bytes)
    returns (run: seq<Action>, up: set<Bytes>)
    requires Execute(Start, run0) == Some(Delivered(before, up0))
    requires 0 < |data| <= STREAM_CHUNK_SIZE && |before| + 1 < UINT64_LIMIT
    ensures Execute(Start, run) == Some(Delivered(before + [data], up))
  {
    var n, all := |before|, Concat(before);
    run, up := OneMoreChunk(run0, Sender(n, all, before), up0, Receiver([], n, all), data);
    OneMoreDelivered(before, data, up);
  }

  lemma OneMoreDelivered(before: seq<Bytes>, data: Bytes, up: set<Bytes>)
    ensures var n, all := |before|, Concat(before);
            Steady(Chunked(Sender(n, all, before), data), up, Receiver([], n + 1, all + data)) == Delivered(before + [data], up)
  {
    ConcatAppend(before, data);
  }

  /** Whatever the local connection gives, chunk by chunk, there is a run in which all of it reaches the upstream. */
  lemma {:induction false} EverythingCanArrive(chunks: seq<Bytes>) returns (run: seq<Action>, up: set<Bytes>)
    requires |chunks| + 1 < UINT64_LIMIT && forall c :: c in chunks ==> 0 < |c| <= STREAM_CHUNK_SIZE
    ensures Execute(Start, run) == Some(Delivered(chunks, up))
  {
    if chunks == [] {
      run := Connects();
      up := {OPEN};
    } else {
      var before, data := chunks[..|chunks| - 1], chunks[|chunks| - 1];
      assert data in chunks && before + [data] == chunks;
      run, up := EverythingCanArrive(before);
      run, up := DeliverOneMore(run, before, up, data);
    }
  }
}
