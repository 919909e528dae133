/** The client's TCP ingress: every accepted local connection becomes a stream on one worker channel. */
module TcpIngress {
  import opened Wrappers
  import opened Frames
  import opened Streams

  /** Where the reader goroutine of a stream is. SendData holds the frame on its way to the channel and
      whether the same Read call also returned an error. */
  datatype ReaderPc = ReaderIdle | ReadLocal | SendData(frame: Frame, failed: bool) | ReaderNotify | ReaderClose | ReaderDone

  datatype WriterPc = WriterIdle | WriterLoop | WriterNotify | WriterClose | WriterDone

  datatype LocalStream = LocalStream(
    channel: nat,
    workerIndex: nat,
    sender: Sender,
    receiver: Receiver,
    reader: ReaderPc,
    writer: WriterPc,
    done: bool,
    notified: bool,
    closes: nat)   // close frames put on the channel

  /** A worker generation's outbound channel. */
  datatype Channel = Channel(workerIndex: nat, queue: seq<Frame>)

  /** Stream id k is streams[k - 1], since ids are counted up from one; open holds the keys of the stream map.
      accepting is the stream whose open frame the accept loop is still trying to queue; closing are the ids that
      were collected under the lock and are closed one by one after it. */
  datatype Ingress = Ingress(
    streams: seq<LocalStream>,
    open: set<nat>,
    channels: seq<Channel>,
    accepting: Option<nat>,
    cancelled: bool,
    closing: set<nat>)

  const Empty := Ingress([], {}, [], None, false, {})

  predicate Known(i: Ingress, id: nat) { 1 <= id <= |i.streams| }

  function Stream(i: Ingress, id: nat): LocalStream
    requires Known(i, id)
  {
    i.streams[id - 1]
  }

  function With(i: Ingress, id: nat, st: LocalStream): Ingress
    requires Known(i, id)
  {
    i.(streams := i.streams[id - 1 := st])
  }

  // ----- channel sends, close notices and closing

  predicate HasRoom(i: Ingress, c: nat) {
    c < |i.channels| && |i.channels[c].queue| < WORKER_QUEUE_SIZE
  }

  function Push(i: Ingress, c: nat, f: Frame): Ingress
    requires c < |i.channels|
  {
    i.(channels := i.channels[c := i.channels[c].(queue := i.channels[c].queue + [f])])
  }

  /** The sending forwarder took the head of a channel. */
  function Pop(i: Ingress, c: nat): Ingress
    requires c < |i.channels| && i.channels[c].queue != []
  {
    i.(channels := i.channels[c := i.channels[c].(queue := i.channels[c].queue[1..])])
  }

  /** notifyRemoteClose: its body runs once per stream, and the close frame is lost when the channel stays full. */
  function NotifyRemoteClose(i: Ingress, id: uint64, sent: bool): Ingress
    requires Known(i, id) && Stream(i, id).channel < |i.channels|
  {
    var st := Stream(i, id);
    if st.notified then i
    else if sent then Push(With(i, id, st.(notified := true, closes := st.closes + 1)), st.channel, CloseFrame(id))
    else With(i, id, st.(notified := true))
  }

  function CloseStream(i: Ingress, id: nat): Ingress {
    if id !in i.open || !Known(i, id) then i
    else With(i, id, Stream(i, id).(done := true)).(open := i.open - {id})
  }

  /** What closing some ids one after the other amounts to when nothing comes in between. */
  function CloseWhere(i: Ingress, ids: set<nat>): Ingress {
    i.(open := i.open - ids,
       streams := seq(|i.streams|, k requires 0 <= k < |i.streams| =>
         if k + 1 in i.open && k + 1 in ids then i.streams[k].(done := true) else i.streams[k]))
  }

  function OfWorker(i: Ingress, index: nat): set<nat> {
    set id | id in i.open && Known(i, id) && Stream(i, id).workerIndex == index
  }

  // ----- steps of the goroutines

  datatype ReaderAction =
    | Read(data: Bytes, failed: bool)
    | Send(sent: bool)
    | ReaderNotifies(sent: bool)
    | ReaderCloses

  datatype WriterAction =
    | Write(n: nat, failed: bool)
    | WriterNotifies(sent: bool)
    | WriterCloses
    | WriterExits

  datatype Action =
    | NewChannel(workerIndex: nat)
    | Accept(channel: nat)
    | OpenSend(sent: bool)
    | OnReader(id: uint64, r: ReaderAction)
    | OnWriter(id: uint64, w: WriterAction)
    | CollectWorker(index: nat)
    | CollectAll
    | CloseCollected(collected: nat)
    | Cancel

  function Fresh(channel: nat, workerIndex: nat): LocalStream {
    LocalStream(channel, workerIndex, NewSender, NewReceiver, ReaderIdle, WriterIdle, false, false, 0)
  }

  /** The accept loop registers the stream on the channel it picked ... */
  function AcceptStep(i: Ingress, c: nat): Option<Ingress> {
    if c < |i.channels| && i.accepting.None? && |i.streams| + 1 < UINT64_LIMIT then
      var id := |i.streams| + 1;
      Some(i.(streams := i.streams + [Fresh(c, i.channels[c].workerIndex)], open := i.open + {id}, accepting := Some(id)))
    else
      None
  }

  /** ... and then queues its open frame; only a queued one starts the reader and the writer. */
  function OpenStep(i: Ingress, sent: bool): Option<Ingress> {
    if i.accepting.None? || !Known(i, i.accepting.value) || i.accepting.value >= UINT64_LIMIT then None else
    var id := i.accepting.value;
    var st := Stream(i, id);
    if !sent then Some(CloseStream(i.(accepting := None), id))
    else if !HasRoom(i, st.channel) then None
    else
      Some(Push(With(i.(accepting := None), id, st.(reader := ReadLocal, writer := WriterLoop)), st.channel, OpenFrame(id)))
  }

  /** What the reader does after a failed Read. */
  function AfterReadError(i: Ingress, id: nat): ReaderPc {
    if id in i.open then ReaderNotify else ReaderClose
  }

  function ReaderStep(i: Ingress, id: uint64, a: ReaderAction): Option<Ingress>
    requires Known(i, id)
  {
    var st := Stream(i, id);
    match a
    case Read(data, failed) =>
      if !st.reader.ReadLocal? || |data| > STREAM_CHUNK_SIZE || st.sender.sequence + 1 >= UINT64_LIMIT then None
      else if data == [] then
        Some(if failed then With(i, id, st.(reader := AfterReadError(i, id))) else i)
      else if id !in i.open then
        Some(With(i, id, st.(sender := Discarded(st.sender, data), reader := ReaderClose)))
      else
        Some(With(i, id, st.(sender := Chunked(st.sender, data),
                             reader := SendData(DataFrame(id, st.sender.sequence, data), failed))))
    case Send(sent) =>
      if !st.reader.SendData? then None
      else if !sent then
        Some(With(i, id, st.(reader := if i.cancelled then ReaderClose else ReaderNotify)))
      else if !HasRoom(i, st.channel) then None
      else
        var next := if st.reader.failed then AfterReadError(i, id) else ReadLocal;
        Some(Push(With(i, id, st.(reader := next)), st.channel, st.reader.frame))
    case ReaderNotifies(sent) =>
      if !st.reader.ReaderNotify? || st.channel >= |i.channels| || (sent && !HasRoom(i, st.channel)) then None
      else Some(NotifyRemoteClose(With(i, id, st.(reader := ReaderClose)), id, sent))
    case ReaderCloses =>
      if !st.reader.ReaderClose? then None else Some(CloseStream(With(i, id, st.(reader := ReaderDone)), id))
  }

  function WriterStep(i: Ingress, id: uint64, a: WriterAction): Option<Ingress>
    requires Known(i, id)
  {
    var st := Stream(i, id);
    match a
    case Write(n, failed) =>
      if !st.writer.WriterLoop? || !WriteOutcome(st.receiver, n, failed) then None else
      var (r, t) := Take(st.receiver, n, failed);
      Some(With(i, id, st.(receiver := r, writer := if t in {Skipped, Written} then WriterLoop else WriterNotify)))
    case WriterNotifies(sent) =>
      if !st.writer.WriterNotify? || st.channel >= |i.channels| || (sent && !HasRoom(i, st.channel)) then None
      else Some(NotifyRemoteClose(With(i, id, st.(writer := WriterClose)), id, sent))
    case WriterCloses =>
      if !st.writer.WriterClose? then None else Some(CloseStream(With(i, id, st.(writer := WriterDone)), id))
    case WriterExits =>
      if !st.writer.WriterLoop? || !(st.done || i.cancelled) then None else Some(With(i, id, st.(writer := WriterDone)))
  }

  function Step(i: Ingress, a: Action): Option<Ingress> {
    match a
    case NewChannel(w) => Some(i.(channels := i.channels + [Channel(w, [])]))
    case Accept(c) => AcceptStep(i, c)
    case OpenSend(sent) => OpenStep(i, sent)
    case OnReader(id, r) => if Known(i, id) then ReaderStep(i, id, r) else None
    case OnWriter(id, w) => if Known(i, id) then WriterStep(i, id, w) else None
    case CollectWorker(index) => Some(i.(closing := i.closing + OfWorker(i, index)))
    case CollectAll => Some(i.(closing := i.closing + i.open))
    case CloseCollected(id) => if id in i.closing then Some(CloseStream(i.(closing := i.closing - {id}), id)) else None
    case Cancel => Some(i.(cancelled := true))
  }

  // ----- delivery of frames that arrive over a worker

  datatype Queueing = Accepted | Closed | Overflow

  /** queueInboundFrame. The select may prefer the closed done channel over a free queue slot, or not. */
  function QueueOutcome(st: LocalStream, preferDone: bool): Queueing {
    if st.done && (preferDone || |st.receiver.inbound| >= INBOUND_QUEUE_SIZE) then Closed
    else if |st.receiver.inbound| < INBOUND_QUEUE_SIZE then Accepted
    else Overflow
  }

  function QueueInbound(i: Ingress, id: nat, f: Frame, preferDone: bool): Ingress
    requires Known(i, id)
  {
    var st := Stream(i, id);
    if QueueOutcome(st, preferDone).Accepted? then With(i, id, st.(receiver := Queued(st.receiver, f))) else i
  }

  // ----- invariants

  /** The reader still starts from everything read having been framed. */
  predicate Framing(r: ReaderPc) {
    r.ReaderIdle? || r.ReadLocal? || r.SendData?
  }

  predicate Running(w: WriterPc) {
    w.WriterIdle? || w.WriterLoop?
  }

  predicate StreamOk(i: Ingress, id: nat)
    requires Known(i, id)
  {
    var st := Stream(i, id);
    && st.channel < |i.channels| && st.workerIndex == i.channels[st.channel].workerIndex
    && SenderOk(st.sender, Framing(st.reader))
    && (st.reader.SendData? ==> st.reader.frame.kind == STREAM_DATA && FrameOf(st.reader.frame, id, st.sender.chunks))
    && (id in i.open <==> !st.done)
    && st.closes <= (if st.notified then 1 else 0)
  }

  /** A frame on channel c belongs to a stream of that channel and carries what that stream's connection gave. */
  predicate SentOn(i: Ingress, c: nat, f: Frame) {
    && Known(i, f.streamID) && Stream(i, f.streamID).channel == c
    && FrameOf(f, f.streamID, Stream(i, f.streamID).sender.chunks)
  }

  predicate ChannelOk(i: Ingress, c: nat)
    requires c < |i.channels|
  {
    |i.channels[c].queue| <= WORKER_QUEUE_SIZE && forall f :: f in i.channels[c].queue ==> SentOn(i, c, f)
  }

  ghost predicate Inv(i: Ingress) {
    && |i.streams| < UINT64_LIMIT
    && (forall id :: id in i.open ==> Known(i, id))
    && (forall id :: Known(i, id) ==> StreamOk(i, id))
    && (forall c :: 0 <= c < |i.channels| ==> ChannelOk(i, c))
    && (i.accepting.Some? ==> Known(i, i.accepting.value) && Idle(Stream(i, i.accepting.value)))
  }

  predicate Idle(st: LocalStream) {
    st.reader.ReaderIdle? && st.writer.WriterIdle?
  }

  /** How an ingress may change: streams are only added, keep their channel, their chunks only grow,
      a closed stream stays closed and its id never re-enters the map. */
  ghost predicate Extends(i: Ingress, i': Ingress) {
    && |i.streams| <= |i'.streams| && |i.channels| <= |i'.channels|
    && (forall id :: Known(i, id) ==>
          && Stream(i', id).channel == Stream(i, id).channel
          && Stream(i', id).workerIndex == Stream(i, id).workerIndex
          && Stream(i, id).sender.chunks <= Stream(i', id).sender.chunks
          && (Stream(i, id).done ==> Stream(i', id).done && id !in i'.open)
          && (Stream(i, id).notified ==> Stream(i', id).notified))
  }

  lemma SentOnExtends(i: Ingress, i': Ingress, c: nat, f: Frame)
    requires Extends(i, i') && SentOn(i, c, f)
    ensures SentOn(i', c, f)
  {
  }

  predicate PushedOn(i: Ingress, i': Ingress, c: nat, f: Frame)
    requires c < |i.channels| && c < |i'.channels|
  {
    SentOn(i', c, f) && i'.channels[c] == i.channels[c].(queue := i.channels[c].queue + [f])
  }

  /** One stream and at most one channel changed: the rest carries over. */
  lemma OneStream(i: Ingress, i': Ingress, id: nat)
    requires Inv(i) && Known(i, id)
    requires |i'.streams| == |i.streams| && i'.cancelled == i.cancelled
    requires i'.accepting == None || (i'.accepting == i.accepting && (Idle(Stream(i, id)) ==> Idle(Stream(i', id))))
    requires |i'.channels| == |i.channels|
    requires forall k :: Known(i, k) && k != id ==> Stream(i', k) == Stream(i, k)
    requires i'.open == i.open || (i'.open == i.open - {id} && Stream(i', id).done)
    requires StreamOk(i', id) && Stream(i', id).channel == Stream(i, id).channel
    requires Stream(i, id).notified ==> Stream(i', id).notified
    requires Stream(i', id).workerIndex == Stream(i, id).workerIndex
    requires Stream(i, id).sender.chunks <= Stream(i', id).sender.chunks
    requires forall c :: 0 <= c < |i.channels| ==>
               || i'.channels[c] == i.channels[c]
               || (|i.channels[c].queue| < WORKER_QUEUE_SIZE && exists f :: PushedOn(i, i', c, f))
    ensures Inv(i') && Extends(i, i')
  {
    assert Extends(i, i') by {
      assert Stream(i, id).done ==> id !in i.open;
    }
    forall c | 0 <= c < |i'.channels| ensures ChannelOk(i', c) {
      assert ChannelOk(i, c);
      forall f | f in i'.channels[c].queue ensures SentOn(i', c, f) {
        if f in i.channels[c].queue {
          SentOnExtends(i, i', c, f);
        }
      }
    }
    forall k | Known(i', k) ensures StreamOk(i', k) {
      if k != id {
        assert StreamOk(i, k);
      }
    }
  }

  /** A new stream, a changed channel list or closed streams: no stream's own progress changed. */
  lemma SameStreams(i: Ingress, i': Ingress)
    requires Inv(i) && |i.streams| <= |i'.streams| < UINT64_LIMIT && |i.channels| <= |i'.channels|
    requires forall id :: Known(i, id) ==>
               Stream(i', id) == Stream(i, id).(done := Stream(i', id).done) && (Stream(i, id).done ==> Stream(i', id).done)
    requires forall id :: Known(i', id) && !Known(i, id) ==> StreamOk(i', id)
    requires forall id :: id in i'.open ==> Known(i', id)
    requires forall id :: Known(i', id) ==> (id in i'.open <==> !Stream(i', id).done)
    requires forall c :: 0 <= c < |i'.channels| ==>
               if c < |i.channels| then i'.channels[c] == i.channels[c] else i'.channels[c].queue == []
    requires i'.accepting.Some? ==> Known(i', i'.accepting.value) && Idle(Stream(i', i'.accepting.value))
    ensures Inv(i') && Extends(i, i')
  {
    forall id | Known(i', id) ensures StreamOk(i', id) {
      if Known(i, id) {
        assert StreamOk(i, id);
      }
    }
    forall c | 0 <= c < |i'.channels| ensures ChannelOk(i', c) {
      if c < |i.channels| {
        assert ChannelOk(i, c);
        forall f | f in i'.channels[c].queue ensures SentOn(i', c, f) {
          SentOnExtends(i, i', c, f);
        }
      }
    }
  }

  lemma NotifyKeeps(i: Ingress, id: uint64, sent: bool)
    requires Inv(i) && Known(i, id) && (sent ==> HasRoom(i, Stream(i, id).channel))
    requires Stream(i, id).channel < |i.channels|
    ensures Inv(NotifyRemoteClose(i, id, sent)) && Extends(i, NotifyRemoteClose(i, id, sent))
  {
    var i' := NotifyRemoteClose(i, id, sent);
    assert StreamOk(i, id);
    if sent && !Stream(i, id).notified {
      assert PushedOn(i, i', Stream(i, id).channel, CloseFrame(id));
    }
    OneStream(i, i', id);
  }

  /** The first notice for a stream, if it can be sent, puts one close frame at the end of the stream's own channel;
      a later one does nothing, and neither touches anything else. */
  lemma NotifyExactly(i: Ingress, id: uint64, sent: bool)
    requires Inv(i) && Known(i, id)
    ensures Stream(i, id).channel < |i.channels|
    ensures var i', st, c := NotifyRemoteClose(i, id, sent), Stream(i, id), Stream(i, id).channel;
            var first := !st.notified && sent;
            && |i'.streams| == |i.streams| && |i'.channels| == |i.channels| && i'.open == i.open
            && Stream(i', id).notified && Stream(i', id).closes == st.closes + (if first then 1 else 0)
            && i'.channels[c].queue == (if first then i.channels[c].queue + [CloseFrame(id)] else i.channels[c].queue)
            && (forall d :: 0 <= d < |i.channels| && d != c ==> i'.channels[d] == i.channels[d])
            && (forall k :: Known(i, k) && k != id ==> Stream(i', k) == Stream(i, k))
            && (!st.notified ==> st.closes == 0)
  {
    assert StreamOk(i, id);
  }

  lemma CloseKeeps(i: Ingress, id: nat)
    requires Inv(i)
    ensures Inv(CloseStream(i, id)) && Extends(i, CloseStream(i, id))
  {
    if id in i.open {
      assert StreamOk(i, id);
      OneStream(i, CloseStream(i, id), id);
    }
  }

  /** A change of one stream's own fields that no frame on a channel depends on. */
  lemma WithKeeps(i: Ingress, id: nat, st: LocalStream)
    requires Inv(i) && Known(i, id)
    requires st.channel == Stream(i, id).channel && st.workerIndex == Stream(i, id).workerIndex
    requires st.done == Stream(i, id).done && st.notified == Stream(i, id).notified && st.closes == Stream(i, id).closes
    requires Idle(Stream(i, id)) ==> Idle(st)
    requires Stream(i, id).sender.chunks <= st.sender.chunks
    requires SenderOk(st.sender, Framing(st.reader))
    requires st.reader.SendData? ==> st.reader.frame.kind == STREAM_DATA && FrameOf(st.reader.frame, id, st.sender.chunks)
    ensures Inv(With(i, id, st)) && Extends(i, With(i, id, st))
  {
    assert StreamOk(i, id);
    OneStream(i, With(i, id, st), id);
  }

  lemma ExtendsTransitive(i: Ingress, j: Ingress, k: Ingress)
    requires Extends(i, j) && Extends(j, k)
    ensures Extends(i, k)
  {
    forall id | Known(i, id)
      ensures Stream(k, id).channel == Stream(i, id).channel && Stream(k, id).workerIndex == Stream(i, id).workerIndex
      ensures Stream(i, id).sender.chunks <= Stream(k, id).sender.chunks
      ensures Stream(i, id).done ==> Stream(k, id).done && id !in k.open
      ensures Stream(i, id).notified ==> Stream(k, id).notified
    {
      assert Known(j, id);
    }
  }

  lemma AcceptKeeps(i: Ingress, c: nat)
    requires Inv(i) && AcceptStep(i, c).Some?
    ensures Inv(AcceptStep(i, c).value) && Extends(i, AcceptStep(i, c).value)
  {
    assert Concat([]) == [];
    forall id | Known(i, id) ensures id in i.open <==> !Stream(i, id).done {
      assert StreamOk(i, id);
    }
    SameStreams(i, AcceptStep(i, c).value);
  }

  lemma OpenKeeps(i: Ingress, sent: bool)
    requires Inv(i) && OpenStep(i, sent).Some?
    ensures Inv(OpenStep(i, sent).value) && Extends(i, OpenStep(i, sent).value)
  {
    var i' := OpenStep(i, sent).value;
    var id := i.accepting.value;
    assert StreamOk(i, id);
    if sent {
      assert PushedOn(i, i', Stream(i, id).channel, OpenFrame(id));
    }
    OneStream(i, i', id);
  }

  lemma ReadKeeps(i: Ingress, id: uint64, a: ReaderAction)
    requires Inv(i) && Known(i, id) && a.Read? && ReaderStep(i, id, a).Some?
    ensures Inv(ReaderStep(i, id, a).value) && Extends(i, ReaderStep(i, id, a).value)
  {
    var st := Stream(i, id);
    assert StreamOk(i, id);
    var st' := Stream(ReaderStep(i, id, a).value, id);
    if a.data != [] && id in i.open {
      ChunkedOk(st.sender, a.data, id);
    } else if a.data != [] {
      assert st'.sender == Discarded(st.sender, a.data) && SenderOk(st'.sender, false);
    }
    WithKeeps(i, id, st');
  }

  lemma SendKeeps(i: Ingress, id: uint64, a: ReaderAction)
    requires Inv(i) && Known(i, id) && a.Send? && ReaderStep(i, id, a).Some?
    ensures Inv(ReaderStep(i, id, a).value) && Extends(i, ReaderStep(i, id, a).value)
  {
    var st, i' := Stream(i, id), ReaderStep(i, id, a).value;
    assert StreamOk(i, id);
    if a.sent {
      assert PushedOn(i, i', st.channel, st.reader.frame);
    }
    OneStream(i, i', id);
  }

  lemma ReaderKeeps(i: Ingress, id: uint64, a: ReaderAction)
    requires Inv(i) && Known(i, id) && ReaderStep(i, id, a).Some?
    ensures Inv(ReaderStep(i, id, a).value) && Extends(i, ReaderStep(i, id, a).value)
  {
    assert StreamOk(i, id);
    match a
    case Read(_, _) => ReadKeeps(i, id, a);
    case Send(_) => SendKeeps(i, id, a);
    case ReaderNotifies(sent) =>
      var m := With(i, id, Stream(i, id).(reader := ReaderClose));
      WithKeeps(i, id, Stream(m, id));
      NotifyKeeps(m, id, sent);
      ExtendsTransitive(i, m, ReaderStep(i, id, a).value);
    case ReaderCloses =>
      var m := With(i, id, Stream(i, id).(reader := ReaderDone));
      WithKeeps(i, id, Stream(m, id));
      CloseKeeps(m, id);
      ExtendsTransitive(i, m, ReaderStep(i, id, a).value);
  }

  lemma WriterKeeps(i: Ingress, id: uint64, a: WriterAction)
    requires Inv(i) && Known(i, id) && WriterStep(i, id, a).Some?
    ensures Inv(WriterStep(i, id, a).value) && Extends(i, WriterStep(i, id, a).value)
  {
    var i' := WriterStep(i, id, a).value;
    assert StreamOk(i, id);
    match a
    case Write(n, failed) => WithKeeps(i, id, Stream(i', id));
    case WriterNotifies(sent) =>
      var m := With(i, id, Stream(i, id).(writer := WriterClose));
      WithKeeps(i, id, Stream(m, id));
      NotifyKeeps(m, id, sent);
      ExtendsTransitive(i, m, i');
    case WriterCloses =>
      var m := With(i, id, Stream(i, id).(writer := WriterDone));
      WithKeeps(i, id, Stream(m, id));
      CloseKeeps(m, id);
      ExtendsTransitive(i, m, i');
    case WriterExits => WithKeeps(i, id, Stream(i', id));
  }

  /** Every step keeps the invariant, and no step shortens what was framed or re-opens a stream. */
  lemma StepKeeps(i: Ingress, a: Action)
    requires Inv(i) && Step(i, a).Some?
    ensures Inv(Step(i, a).value) && Extends(i, Step(i, a).value)
  {
    match a
    case NewChannel(w) =>
      forall id | Known(i, id) ensures id in i.open <==> !Stream(i, id).done {
        assert StreamOk(i, id);
      }
      SameStreams(i, Step(i, a).value);
    case Accept(c) => AcceptKeeps(i, c);
    case OpenSend(sent) => OpenKeeps(i, sent);
    case OnReader(id, r) => ReaderKeeps(i, id, r);
    case OnWriter(id, w) => WriterKeeps(i, id, w);
    case CollectWorker(_) => BookkeepingKeeps(i, Step(i, a).value);
    case CollectAll => BookkeepingKeeps(i, Step(i, a).value);
    case CloseCollected(id) =>
      BookkeepingKeeps(i, i.(closing := i.closing - {id}));
      CloseKeeps(i.(closing := i.closing - {id}), id);
    case Cancel => BookkeepingKeeps(i, Step(i, a).value);
  }

  lemma BookkeepingKeeps(i: Ingress, i': Ingress)
    requires Inv(i) && i' == i.(closing := i'.closing, cancelled := i'.cancelled)
    ensures Inv(i') && Extends(i, i')
  {
    forall id | Known(i, id) ensures id in i.open <==> !Stream(i, id).done {
      assert StreamOk(i, id);
    }
    SameStreams(i, i');
  }

  /** Collected ids are closed, or still waiting for it. */
  predicate Collected(i: Ingress, ids: set<nat>) { forall id :: id in ids ==> Known(i, id) && (id in i.closing || id !in i.open) }

  lemma CollectedStays(i: Ingress, i': Ingress, ids: set<nat>)
    requires Inv(i) && Extends(i, i') && Collected(i, ids)
    requires forall id :: id in i.closing ==> id in i'.closing || id !in i'.open
    ensures Collected(i', ids)
  {
    forall id | id in ids ensures Known(i', id) && (id in i'.closing || id !in i'.open) {
      assert StreamOk(i, id);
    }
  }

  lemma ClosingShrinksByClosing(i: Ingress, a: Action)
    requires Inv(i) && Step(i, a).Some?
    ensures forall id :: id in i.closing ==> id in Step(i, a).value.closing || id !in Step(i, a).value.open
  {
  }

  lemma CloseWhereKeeps(i: Ingress, ids: set<nat>, cancelled: bool)
    requires Inv(i)
    ensures var i' := CloseWhere(i, ids).(cancelled := cancelled); Inv(i') && Extends(i, i')
  {
    forall id | Known(i, id) ensures id in i.open <==> !Stream(i, id).done {
      assert StreamOk(i, id);
    }
    SameStreams(i, CloseWhere(i, ids).(cancelled := cancelled));
  }

  lemma QueueKeeps(i: Ingress, id: nat, f: Frame, preferDone: bool)
    requires Inv(i) && Known(i, id)
    ensures Inv(QueueInbound(i, id, f, preferDone)) && Extends(i, QueueInbound(i, id, f, preferDone))
  {
    var i' := QueueInbound(i, id, f, preferDone);
    if i' != i {
      assert StreamOk(i, id);
      WithKeeps(i, id, Stream(i', id));
    }
  }

  lemma ReaderKeepsChannels(i: Ingress, id: uint64, a: ReaderAction)
    requires Known(i, id) && ReaderStep(i, id, a).Some?
    ensures |ReaderStep(i, id, a).value.channels| == |i.channels|
  {
  }

  lemma WriterKeepsChannels(i: Ingress, id: uint64, a: WriterAction)
    requires Known(i, id) && WriterStep(i, id, a).Some?
    ensures |WriterStep(i, id, a).value.channels| == |i.channels|
  {
  }

  lemma StepKeepsChannels(i: Ingress, a: Action)
    requires Step(i, a).Some? && !a.NewChannel?
    ensures |Step(i, a).value.channels| == |i.channels|
  {
    match a
    case OnReader(id, r) => ReaderKeepsChannels(i, id, r);
    case OnWriter(id, w) => WriterKeepsChannels(i, id, w);
    case _ =>
  }

  lemma PopKeeps(i: Ingress, c: nat)
    requires Inv(i) && c < |i.channels| && i.channels[c].queue != []
    ensures Inv(Pop(i, c)) && Extends(i, Pop(i, c))
    ensures SentOn(Pop(i, c), c, i.channels[c].queue[0])
  {
    var i' := Pop(i, c);
    assert i.channels[c].queue[0] in i.channels[c].queue && ChannelOk(i, c);
    forall id | Known(i, id) ensures StreamOk(i', id) && (Stream(i, id).done ==> id !in i'.open) {
      assert StreamOk(i, id);
    }
    forall d | 0 <= d < |i'.channels| ensures ChannelOk(i', d) {
      assert ChannelOk(i, d);
      forall f | f in i'.channels[d].queue ensures SentOn(i', d, f) {
        assert f in i.channels[d].queue;
      }
    }
  }

  lemma Unchanged(i: Ingress)
    requires Inv(i)
    ensures Extends(i, i)
  {
    forall id | Known(i, id) && Stream(i, id).done ensures id !in i.open {
      assert StreamOk(i, id);
    }
  }

  predicate SameReceiver(i: Ingress, i': Ingress, k: nat) {
    Known(i, k) && Known(i', k) && Stream(i', k).receiver == Stream(i, k).receiver && Stream(i', k).writer == Stream(i, k).writer
  }

  lemma ClosingLeavesReceivers(i: Ingress, id: uint64, sent: bool, k: nat)
    requires Known(i, k)
    ensures SameReceiver(i, CloseStream(i, id), k)
    ensures Known(i, id) && Stream(i, id).channel < |i.channels| ==> SameReceiver(i, NotifyRemoteClose(i, id, sent), k)
  {
  }

  lemma ReaderLeavesReceivers(i: Ingress, id: uint64, a: ReaderAction, k: nat)
    requires Known(i, id) && Known(i, k) && ReaderStep(i, id, a).Some?
    ensures Known(ReaderStep(i, id, a).value, k)
    ensures Stream(ReaderStep(i, id, a).value, k).receiver == Stream(i, k).receiver
    ensures Stream(ReaderStep(i, id, a).value, k).writer == Stream(i, k).writer
  {
  }

  lemma WriterTurnsReceivers(i: Ingress, id: uint64, a: WriterAction, k: nat)
    requires Known(i, id) && Known(i, k) && WriterStep(i, id, a).Some? && Known(WriterStep(i, id, a).value, k)
    ensures var st, st' := Stream(i, k), Stream(WriterStep(i, id, a).value, k);
            ReceiverStep(st.receiver, Running(st.writer), st'.receiver, Running(st'.writer))
  {
    var st, st' := Stream(i, k), Stream(WriterStep(i, id, a).value, k);
    if a.Write? && k == id {
      assert WriteOutcome(st.receiver, a.n, a.failed);
    } else {
      assert st'.receiver == st.receiver && (Running(st'.writer) ==> Running(st.writer));
    }
  }

  /** Outside delivery, a receiver only ever moves by a turn of its own writer loop. */
  lemma StepTurnsReceivers(i: Ingress, a: Action, k: nat)
    requires Inv(i) && Step(i, a).Some? && Known(i, k) && Known(Step(i, a).value, k)
    ensures var st, st' := Stream(i, k), Stream(Step(i, a).value, k);
            ReceiverStep(st.receiver, Running(st.writer), st'.receiver, Running(st'.writer))
  {
    match a
    case OnReader(id, r) => ReaderLeavesReceivers(i, id, r, k);
    case OnWriter(id, w) => WriterTurnsReceivers(i, id, w, k);
    case _ =>
      var st, st' := Stream(i, k), Stream(Step(i, a).value, k);
      assert st'.receiver == st.receiver && (Running(st'.writer) ==> Running(st.writer));
  }

  lemma NewStreamsStartFresh(i: Ingress, a: Action, id: nat)
    requires Step(i, a).Some? && !Known(i, id) && Known(Step(i, a).value, id)
    ensures Stream(Step(i, a).value, id).receiver == NewReceiver
  {
  }
}
