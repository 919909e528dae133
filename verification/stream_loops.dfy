/** The adapters as the code has them: maps and stream fields updated in place, and the reader and writer
    loops of one stream. Each method is tied to the step functions the tunnel is built from. */
module StreamLoops {
  import opened Wrappers
  import opened Frames
  import opened Streams
  import Workers
  import I = TcpIngress
  import E = TcpEgress

  // ----- one stream's reader and writer loops

  /** A Read call on the local connection: the bytes it returned and whether it also failed. */
  datatype ReadCall = ReadCall(data: Bytes, failed: bool)

  /** Everything read up to the first failed read, its own bytes included. */
  function ReadBytes(calls: seq<ReadCall>): Bytes {
    if calls == [] then [] else calls[0].data + if calls[0].failed then [] else ReadBytes(calls[1..])
  }

  lemma ReadOneMore(calls: seq<ReadCall>, i: nat, consumed: Bytes)
    requires i < |calls|
    ensures consumed + ReadBytes(calls[i..]) ==
            consumed + calls[i].data + if calls[i].failed then [] else ReadBytes(calls[i + 1..])
  {
    assert calls[i..][1..] == calls[i + 1..];
  }

  /** These frames carry these chunks, numbered from zero. */
  predicate Numbered(frames: seq<Frame>, id: uint64, chunks: seq<Bytes>) {
    |frames| == |chunks| < UINT64_LIMIT && forall k :: 0 <= k < |frames| ==> frames[k] == DataFrame(id, k, chunks[k])
  }

  lemma NumberedGrows(frames: seq<Frame>, id: uint64, s: Sender, data: Bytes)
    requires Numbered(frames, id, s.chunks) && SenderOk(s, true) && s.sequence + 1 < UINT64_LIMIT && |data| <= STREAM_CHUNK_SIZE
    ensures SenderOk(Chunked(s, data), true)
    ensures Numbered(frames + [DataFrame(id, s.sequence, data)], id, Chunked(s, data).chunks)
  {
    ChunkedOk(s, data, id);
  }

  /** The reader loop until its first failed read: every nonempty read becomes the next numbered frame. */
  method RunStreamReader(id: uint64, calls: seq<ReadCall>) returns (frames: seq<Frame>, s: Sender)
    requires |calls| < UINT64_LIMIT
    requires forall r :: r in calls ==> |r.data| <= STREAM_CHUNK_SIZE
    ensures SenderOk(s, true) && s.consumed == ReadBytes(calls)
    ensures Numbered(frames, id, s.chunks)
  {
    frames, s := [], NewSender;
    var i := 0;
    while i < |calls|
      invariant 0 <= i <= |calls| && |s.chunks| <= i
      invariant SenderOk(s, true) && Numbered(frames, id, s.chunks)
      invariant ReadBytes(calls) == s.consumed + ReadBytes(calls[i..])
    {
      var call := calls[i];
      ReadOneMore(calls, i, s.consumed);
      assert s.consumed + [] == s.consumed;
      if call.data != [] {
        NumberedGrows(frames, id, s, call.data);
        frames := frames + [DataFrame(id, s.sequence, call.data)];
        s := Chunked(s, call.data);
      }
      if call.failed {
        return;
      }
      i := i + 1;
    }
  }

  /** How many bytes each write writes, and whether it fails; writing less than asked for is a failure. */
  type Outcomes = seq<(nat, bool)>

  function Taken(r: Receiver, outcome: (nat, bool)): (Receiver, Taken)
    requires r.inbound != []
  {
    var size := |r.inbound[0].payload|;
    Take(r, if outcome.0 < size then outcome.0 else size, outcome.1 || outcome.0 < size)
  }

  /** Turn after turn of the writer loop, until one of them ends it. */
  function WriteAll(r: Receiver, outcomes: Outcomes): Receiver
    requires |outcomes| == |r.inbound|
    decreases |outcomes|
  {
    if r.inbound == [] then r else
    var (r', t) := Taken(r, outcomes[0]);
    if t in {Skipped, Written} then WriteAll(r', outcomes[1..]) else r'
  }

  /** The writer loop over the frames that happen to arrive. */
  method RunStreamWriter(arrivals: seq<Frame>, outcomes: Outcomes) returns (produced: Bytes)
    requires |outcomes| == |arrivals|
    ensures produced == WriteAll(Receiver(arrivals, 0, []), outcomes).produced
  {
    var sequence := 0;
    produced := [];
    var i := 0;
    while i < |arrivals|
      invariant 0 <= i <= |arrivals| && sequence >= 0
      invariant WriteAll(Receiver(arrivals, 0, []), outcomes) == WriteAll(Receiver(arrivals[i..], sequence, produced), outcomes[i..])
    {
      var f := arrivals[i];
      assert arrivals[i..][0] == f && arrivals[i..][1..] == arrivals[i + 1..] && outcomes[i..][1..] == outcomes[i + 1..];
      if f.kind == STREAM_DATA {
        if f.sequence != sequence {
          break;
        }
        sequence := sequence + 1;
        var (n, failed) := outcomes[i];
        if failed || n < |f.payload| {
          produced := produced + f.payload[..if n < |f.payload| then n else |f.payload|];
          return;
        }
        assert f.payload[..|f.payload|] == f.payload;
        produced := produced + f.payload;
      }
      i := i + 1;
    }
  }

  /** Whatever arrives, in any order, with gaps and repetitions, and whatever fails: what is written is a prefix of
      the chunks behind the numbers. */
  lemma {:induction false} WriterWritesPrefix(r: Receiver, outcomes: Outcomes, id: nat, chunks: seq<Bytes>)
    requires |outcomes| == |r.inbound| && r.sequence <= |chunks| && r.produced == Concat(chunks[..r.sequence])
    requires forall f :: f in r.inbound && f.kind == STREAM_DATA ==> FrameOf(f, id, chunks)
    ensures WriteAll(r, outcomes).produced <= Concat(chunks)
    decreases |outcomes|
  {
    ConcatPrefix(chunks, r.sequence);
    if r.inbound != [] {
      var f := r.inbound[0];
      var (r', t) := Taken(r, outcomes[0]);
      if f.kind == STREAM_DATA && f.sequence == r.sequence {
        assert chunks[..r.sequence + 1] == chunks[..r.sequence] + [f.payload];
        ConcatAppend(chunks[..r.sequence], f.payload);
        ConcatPrefix(chunks, r.sequence + 1);
      }
      if t in {Skipped, Written} {
        assert f.payload[..|f.payload|] == f.payload;
        WriterWritesPrefix(r', outcomes[1..], id, chunks);
      }
    }
  }

  /** When the frames of a stream arrive in order and no write fails, all of it is written: the writer loop undoes
      the reader loop. */
  lemma {:induction false} WriterUndoesReader(r: Receiver, outcomes: Outcomes, id: nat, chunks: seq<Bytes>)
    requires |outcomes| == |r.inbound| == |chunks| - r.sequence && r.produced == Concat(chunks[..r.sequence])
    requires forall k :: 0 <= k < |r.inbound| ==>
               && r.inbound[k].kind == STREAM_DATA && r.inbound[k].sequence == r.sequence + k
               && r.inbound[k].payload == chunks[r.sequence + k] && outcomes[k] == (|chunks[r.sequence + k]|, false)
    ensures WriteAll(r, outcomes).produced == Concat(chunks)
    decreases |outcomes|
  {
    if r.inbound == [] {
      assert chunks[..r.sequence] == chunks;
    } else {
      var f := r.inbound[0];
      assert chunks[..r.sequence + 1] == chunks[..r.sequence] + [f.payload];
      ConcatAppend(chunks[..r.sequence], f.payload);
      assert f.payload[..|f.payload|] == f.payload;
      WriterUndoesReader(Taken(r, outcomes[0]).0, outcomes[1..], id, chunks);
    }
  }

  // ----- the client's ingress

  class TCPIngress {
    const workers: Workers.WorkerSet<nat>
    var streams: seq<I.LocalStream>
    var open: set<nat>
    var channels: seq<I.Channel>
    var accepting: Option<nat>
    var cancelled: bool

    ghost function Value(): I.Ingress
      reads this
    {
      I.Ingress(streams, open, channels, accepting, cancelled, {})
    }

    constructor ()
      ensures Value() == I.Empty && fresh(workers) && workers.Value() == Workers.Ring([], 0)
    {
      workers := new Workers.WorkerSet();
      streams, open, channels, accepting, cancelled := [], {}, [], None, false;
    }

    /** One turn of the accept loop: the connection goes to the next worker, if there is one, under a new id; if its
        open frame cannot be queued, the stream is closed again before any of its loops starts. */
    method AcceptConnection(sent: bool) returns (id: Option<nat>)
      requires accepting.None? && |streams| + 1 < UINT64_LIMIT
      requires forall r :: r in workers.workers ==> r.outbound < |channels|
      modifies this, workers
      ensures workers.Value() == Workers.Advanced(old(workers.Value()))
      ensures match old(Workers.Served(workers.Value()))
              case None => id.None? && Value() == old(Value())
              case Some(worker) =>
                var stored := I.AcceptStep(old(Value()), worker.outbound).value;
                && id == Some(old(|streams|) + 1)
                && Value() == I.OpenStep(stored, sent && I.HasRoom(stored, worker.outbound)).value
    {
      var worker := workers.Next();
      if worker.None? {
        return None;
      }
      var c := worker.value.outbound;
      var streamID := |streams| + 1;
      streams := streams + [I.Fresh(c, channels[c].workerIndex)];
      open := open + {streamID};
      if sent && |channels[c].queue| < WORKER_QUEUE_SIZE {
        channels := channels[c := channels[c].(queue := channels[c].queue + [OpenFrame(streamID)])];
        streams := streams[streamID - 1 := streams[streamID - 1].(reader := I.ReadLocal, writer := I.WriterLoop)];
      } else {
        CloseStream(streamID);
      }
      return Some(streamID);
    }

    method CloseStream(id: nat)
      modifies this
      ensures Value() == I.CloseStream(old(Value()), id)
      ensures I.CloseStream(Value(), id) == Value()
      ensures forall k :: k != id ==> (k in open <==> k in old(open))
    {
      if id in open && 1 <= id <= |streams| {
        open := open - {id};
        streams := streams[id - 1 := streams[id - 1].(done := true)];
      }
    }

    method NotifyRemoteClose(id: uint64, sent: bool)
      requires I.Known(Value(), id) && I.Stream(Value(), id).channel < |channels|
      modifies this
      ensures Value() == I.NotifyRemoteClose(old(Value()), id, sent)
      ensures forall again :: I.NotifyRemoteClose(Value(), id, again) == Value()
      ensures |streams| == |old(streams)| && |channels| == |old(channels)| && streams[id - 1].notified
      ensures var c, first := old(streams)[id - 1].channel, sent && !old(streams)[id - 1].notified;
              && channels[c].queue == (if first then old(channels)[c].queue + [CloseFrame(id)] else old(channels)[c].queue)
              && streams[id - 1].closes == old(streams)[id - 1].closes + if first then 1 else 0
    {
      var st := streams[id - 1];
      if !st.notified {
        streams := streams[id - 1 := st.(notified := true, closes := st.closes + (if sent then 1 else 0))];
        if sent {
          channels := channels[st.channel :=
            channels[st.channel].(queue := channels[st.channel].queue + [CloseFrame(id)])];
        }
      }
    }

    /** A full queue drops the frame, gives notice and closes the stream. */
    method QueueInboundFrame(id: uint64, f: Frame, preferDone: bool, sent: bool) returns (queued: bool)
      requires I.Known(Value(), id) && I.Stream(Value(), id).channel < |channels|
      modifies this
      ensures queued <==> I.QueueOutcome(old(I.Stream(Value(), id)), preferDone).Accepted?
      ensures Value() ==
              if I.QueueOutcome(old(I.Stream(Value(), id)), preferDone).Overflow?
              then I.CloseStream(I.NotifyRemoteClose(old(Value()), id, sent), id)
              else I.QueueInbound(old(Value()), id, f, preferDone)
    {
      var st := streams[id - 1];
      var outcome := I.QueueOutcome(st, preferDone);
      match outcome
      case Accepted =>
        streams := streams[id - 1 := st.(receiver := Queued(st.receiver, f))];
        return true;
      case Closed =>
        return false;
      case Overflow =>
        NotifyRemoteClose(id, sent);
        CloseStream(id);
        return false;
    }

    /** Frames of unknown streams are dropped; kinds a TCP ingress cannot deliver are an error. */
    method Deliver(f: Frame, preferDone: bool, sent: bool) returns (failed: bool)
      requires I.Inv(Value())
      modifies this
      ensures I.Inv(Value()) && I.Extends(old(Value()), Value())
      ensures failed <==> f.kind !in {STREAM_DATA, STREAM_CLOSE}
      ensures failed || (f.kind == STREAM_DATA && f.streamID !in old(open)) ==> Value() == old(Value())
      ensures f.kind == STREAM_CLOSE ==> Value() == I.CloseStream(old(Value()), f.streamID)
      ensures f.kind == STREAM_DATA && f.streamID in old(open) ==>
                var before, id := old(Value()), f.streamID;
                var st := I.Stream(before, id);
                Value() == if I.QueueOutcome(st, preferDone).Overflow?
                           then I.CloseStream(I.NotifyRemoteClose(before, id, sent && I.HasRoom(before, st.channel)), id)
                           else I.QueueInbound(before, id, f, preferDone)
    {
      ghost var before := Value();
      I.Unchanged(before);
      if f.kind == STREAM_DATA {
        if f.streamID !in open {
          return false;
        }
        assert I.StreamOk(before, f.streamID);
        var canSend := sent && I.HasRoom(I.Ingress(streams, open, channels, accepting, cancelled, {}), streams[f.streamID - 1].channel);
        var queued := QueueInboundFrame(f.streamID, f, preferDone, canSend);
        if queued {
          I.QueueKeeps(before, f.streamID, f, preferDone);
        } else {
          I.NotifyKeeps(before, f.streamID, canSend);
          I.CloseKeeps(I.NotifyRemoteClose(before, f.streamID, canSend), f.streamID);
          I.ExtendsTransitive(before, I.NotifyRemoteClose(before, f.streamID, canSend), Value());
        }
        return false;
      } else if f.kind == STREAM_CLOSE {
        I.CloseKeeps(before, f.streamID);
        CloseStream(f.streamID);
        return false;
      }
      return true;
    }

    /** Collects the ids of one worker's streams, then closes them one by one. */
    method CloseWorkerStreams(index: nat)
      modifies this
      ensures Value() == I.CloseWhere(old(Value()), I.OfWorker(old(Value()), index))
      ensures I.OfWorker(Value(), index) == {} && (I.Inv(old(Value())) ==> I.Inv(Value()))
      ensures forall id :: id in open <==> id in old(open) && !(1 <= id <= |old(streams)| && old(streams)[id - 1].workerIndex == index)
    {
      if I.Inv(Value()) {
        I.CloseWhereKeeps(Value(), I.OfWorker(Value(), index), cancelled);
      }
      var ids := set id | id in open && 1 <= id <= |streams| && streams[id - 1].workerIndex == index;
      assert ids == I.OfWorker(Value(), index);
      CloseEach(ids);
    }

    method CloseAllStreams()
      requires forall id :: id in open ==> I.Known(Value(), id)
      modifies this
      ensures Value() == I.CloseWhere(old(Value()), old(open)) && open == {}
      ensures I.Inv(old(Value())) ==> I.Inv(Value())
    {
      if I.Inv(Value()) {
        I.CloseWhereKeeps(Value(), open, cancelled);
      }
      CloseEach(open);
    }

    method CloseEach(ids: set<nat>)
      requires forall id :: id in ids ==> I.Known(Value(), id)
      modifies this
      ensures Value() == I.CloseWhere(old(Value()), ids)
    {
      var rest := ids;
      while rest != {}
        invariant rest <= ids
        invariant Value() == I.CloseWhere(old(Value()), ids - rest)
        decreases rest
      {
        var id :| id in rest;
        ghost var now := Value();
        CloseStream(id);
        ClosesOneMore(old(Value()), ids - rest, id);
        rest := rest - {id};
        assert ids - rest == (ids - (rest + {id})) + {id};
      }
      assert ids - rest == ids;
    }

    /** A removed worker no longer gets new streams, and those it had in the map are closed. */
    method Remove(index: nat)
      modifies this, workers
      ensures workers.Value() == Workers.Removed(old(workers.Value()), index)
      ensures Value() == I.CloseWhere(old(Value()), I.OfWorker(old(Value()), index))
      ensures forall id :: id in open <==> id in old(open) && !(1 <= id <= |old(streams)| && old(streams)[id - 1].workerIndex == index)
    {
      workers.Remove(index);
      CloseWorkerStreams(index);
    }
  }

  lemma ClosesOneMore(i: I.Ingress, ids: set<nat>, id: nat)
    requires I.Known(i, id)
    ensures I.CloseStream(I.CloseWhere(i, ids), id) == I.CloseWhere(i, ids + {id})
  {
    var a, b := I.CloseStream(I.CloseWhere(i, ids), id), I.CloseWhere(i, ids + {id});
    assert a.open == b.open;
    assert a.streams == b.streams;
  }

  // ----- the server's egress

  class TCPEgress {
    var streams: seq<E.UpstreamStream>
    var open: map<uint64, nat>
    var asyncCloses: multiset<uint64>
    var handling: Option<(nat, Frame)>
    var openings: seq<uint64>
    var sent: set<Bytes>
    var fault: Option<E.Fault>
    var cancelled: bool

    ghost function Value(): E.Egress
      reads this
    {
      E.Egress(streams, open, asyncCloses, handling, openings, sent, fault, cancelled, {})
    }

    constructor ()
      ensures Value() == E.Empty
    {
      streams, open, asyncCloses, handling := [], map[], multiset{}, None;
      openings, sent, fault, cancelled := [], {}, None, false;
    }

    method HandleFrame(f: Frame)
      modifies this
      ensures Value() == E.HandleFrame(old(Value()), f)
      ensures E.Inv(old(Value())) ==> E.Inv(Value()) && E.Extends(old(Value()), Value())
    {
      if E.Inv(Value()) {
        E.HandleFrameKeeps(Value(), f);
      }
      if f.kind == STREAM_OPEN {
        OpenStream(f.streamID);
      } else if f.kind == STREAM_DATA {
        if f.streamID in open {
          handling := Some((open[f.streamID], f));
        }
      } else if f.kind == STREAM_CLOSE {
        CloseStream(f.streamID, false, false);
      } else {
        fault := Some(E.Fault.UnsupportedKind);
      }
    }

    /** storeStream refuses an id that is in the map; that error ends the session. */
    method OpenStream(id: uint64)
      modifies this
      ensures Value() == E.HandleFrame(old(Value()), OpenFrame(id))
      ensures id in open && forall k :: k in old(open) ==> k in open && open[k] == old(open)[k]
    {
      if id in open {
        fault := Some(E.AlreadyOpen);
      } else {
        open := open[id := |streams|];
        streams := streams + [E.Fresh(id, |openings|)];
      }
      openings := openings + [id];
    }

    method CloseStream(id: uint64, notify: bool, written: bool)
      modifies this
      ensures Value() == E.CloseStream(old(Value()), id, notify, written)
      ensures forall n, w :: E.CloseStream(Value(), id, n, w) == Value()
      ensures var known := id in old(open) && old(open)[id] < |old(streams)|;
              && sent == (if known && notify && written then old(sent) + {Wire(CloseFrame(id))} else old(sent))
              && |streams| == |old(streams)|
              && (known ==> id !in open && streams[old(open)[id]].done &&
                            streams[old(open)[id]].closes == old(streams)[old(open)[id]].closes + if notify && written then 1 else 0)
              && (!known ==> Value() == old(Value()))
    {
      if id in open && open[id] < |streams| {
        var k := open[id];
        open := open - {id};
        var st := streams[k].(done := true, quiet := !notify);
        if notify && written {
          st := st.(closes := st.closes + 1);
          sent := sent + {Wire(CloseFrame(id))};
        }
        streams := streams[k := st];
      }
    }

    method QueueInboundFrame(preferDone: bool)
      requires E.QueueInbound(Value(), preferDone).Some?
      modifies this
      ensures Value() == E.QueueInbound(old(Value()), preferDone).value
      ensures handling.None? && |streams| == old(|streams|)
      ensures forall k :: 0 <= k < |streams| && old(|streams[k].receiver.inbound|) <= INBOUND_QUEUE_SIZE ==>
                |streams[k].receiver.inbound| <= INBOUND_QUEUE_SIZE
    {
      var (k, f) := handling.value;
      var st := streams[k];
      handling := None;
      match E.QueueOutcome(st, preferDone)
      case Accepted => streams := streams[k := st.(receiver := Queued(st.receiver, f))];
      case Closed =>
      case Overflow => asyncCloses := asyncCloses + multiset{st.id};
    }

    /** Close collects the ids of all open streams and closes each without notice. */
    method Close()
      requires E.Inv(Value())
      modifies this
      ensures Value() == E.CloseAll(old(Value()))
      ensures open == map[] && sent == old(sent) && E.Inv(Value()) && E.Extends(old(Value()), Value())
    {
      E.CloseAllKeeps(Value());
      CloseCollected(open.Keys);
    }

    method CloseCollected(ids: set<uint64>)
      requires E.Inv(Value()) && ids <= open.Keys
      modifies this
      ensures Value() == E.CloseQuietly(old(Value()), ids)
    {
      var rest := ids;
      ghost var before := Value();
      QuietlyNone(before);
      while rest != {}
        invariant rest <= ids && Value() == E.CloseQuietly(before, ids - rest)
        decreases rest
      {
        var id :| id in rest;
        ghost var closed := ids - rest;
        QuietlyOneMore(before, closed, id);
        CloseStream(id, false, false);
        rest := rest - {id};
        assert ids - rest == closed + {id};
      }
      assert ids - rest == ids;
    }
  }

  lemma QuietlyNone(e: E.Egress)
    ensures E.CloseQuietly(e, {}) == e
  {
    assert e.open - {} == e.open;
    assert E.CloseQuietly(e, {}).streams == e.streams;
  }

  lemma QuietlyOneMore(e: E.Egress, ids: set<uint64>, id: uint64)
    requires E.Inv(e) && id in e.open && id !in ids
    ensures E.CloseStream(E.CloseQuietly(e, ids), id, false, false) == E.CloseQuietly(e, ids + {id})
  {
    var a, b := E.CloseStream(E.CloseQuietly(e, ids), id, false, false), E.CloseQuietly(e, ids + {id});
    var k := e.open[id];
    assert E.StreamOk(e, k) && E.Mapped(e, k);
    assert a.open == b.open;
    forall j | 0 <= j < |e.streams| ensures a.streams[j] == b.streams[j] {
      if j != k && e.streams[j].id == id {
        assert !E.Mapped(e, j);
      }
    }
    assert a.streams == b.streams;
  }
}
