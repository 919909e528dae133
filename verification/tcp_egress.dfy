/** The server's TCP egress of one overlay session: every StreamOpen starts a stream to the upstream. */
module TcpEgress {
  import opened Wrappers
  import opened Frames
  import opened Streams

  datatype DialPc = Dialing | Dialed | RunClosing | RunDone

  datatype ReaderPc = ReaderIdle | ReadUpstream | WriteBack(frame: Frame, failed: bool) | ReaderDone

  datatype WriterPc = WriterIdle | WriterLoop | WriterDone

  /** opening is the place of the StreamOpen that created this stream among all those handled. */
  datatype UpstreamStream = UpstreamStream(
    id: uint64,
    opening: nat,
    sender: Sender,
    receiver: Receiver,
    dial: DialPc,
    reader: ReaderPc,
    writer: WriterPc,
    done: bool,
    quiet: bool,     // closed without a notice to the client
    closes: nat)     // close frames written

  datatype Fault = AlreadyOpen | UnsupportedKind | BadFrame

  /** open maps a stream id to its entry in streams, which also keeps the streams that were closed.
      asyncCloses are the goroutines started after a full queue; handling is the stream and frame between
      lookup and queueing in the frame loop; sent is everything written to the link; closing are the ids collected
      when the session ends, to be closed one by one. */
  datatype Egress = Egress(
    streams: seq<UpstreamStream>,
    open: map<uint64, nat>,
    asyncCloses: multiset<uint64>,
    handling: Option<(nat, Frame)>,
    openings: seq<uint64>,
    sent: set<Bytes>,
    fault: Option<Fault>,
    cancelled: bool,
    closing: set<uint64>)

  const Empty := Egress([], map[], multiset{}, None, [], {}, None, false, {})

  function Fresh(id: uint64, opening: nat): UpstreamStream {
    UpstreamStream(id, opening, NewSender, NewReceiver, Dialing, ReaderIdle, WriterIdle, false, false, 0)
  }

  // ----- the frame loop

  /** HandleFrame up to the point where a data frame is about to be queued. */
  function HandleFrame(e: Egress, f: Frame): Egress {
    if f.kind == STREAM_OPEN then
      var e1 := e.(openings := e.openings + [f.streamID]);
      if f.streamID in e.open then e1.(fault := Some(AlreadyOpen))
      else e1.(streams := e.streams + [Fresh(f.streamID, |e.openings|)], open := e.open[f.streamID := |e.streams|])
    else if f.kind == STREAM_DATA then
      if f.streamID in e.open then e.(handling := Some((e.open[f.streamID], f))) else e
    else if f.kind == STREAM_CLOSE then
      CloseStream(e, f.streamID, false, false)
    else e.(fault := Some(Fault.UnsupportedKind))
  }

  /** runClientFrames: frames of other kinds than these never reach the adapter. */
  function ReceiveFrame(e: Egress, datagram: Bytes): Egress {
    match ReadDatagram(datagram)
    case Err(_) => e.(fault := Some(BadFrame))
    case Ok(f) => if DATAGRAM <= f.kind <= STREAM_CLOSE then HandleFrame(e, f) else e
  }

  /** closeStream: the first one to find the id in the map closes the stream; if it must give notice,
      the close frame may still fail to be written. */
  function CloseStream(e: Egress, id: uint64, notify: bool, written: bool): Egress {
    if id !in e.open || e.open[id] >= |e.streams| then e else
    var k := e.open[id];
    var st := e.streams[k];
    var st' := st.(done := true, quiet := !notify, closes := st.closes + (if notify && written then 1 else 0));
    e.(streams := e.streams[k := st'], open := e.open - {id},
       sent := if notify && written then e.sent + {Wire(CloseFrame(id))} else e.sent)
  }

  /** What closing some ids one after the other, without notice, amounts to when nothing comes in between. */
  function CloseQuietly(e: Egress, ids: set<uint64>): Egress {
    e.(open := e.open - ids,
       streams := seq(|e.streams|, k requires 0 <= k < |e.streams| =>
         if Mapped(e, k) && e.streams[k].id in ids then e.streams[k].(done := true, quiet := true) else e.streams[k]))
  }

  function CloseAll(e: Egress): Egress { CloseQuietly(e, e.open.Keys) }

  predicate Mapped(e: Egress, k: nat)
    requires k < |e.streams|
  {
    e.streams[k].id in e.open && e.open[e.streams[k].id] == k
  }

  // ----- steps of the goroutines

  datatype StreamAction =
    | Dial(ok: bool)
    | Read(data: Bytes, failed: bool)
    | WriteFrame(ok: bool)
    | Write(n: nat, failed: bool)
    | WriterExits
    | RunReturns
    | RunCloses(written: bool)

  datatype Action =
    | OnStream(k: nat, s: StreamAction)
    | Queue(preferDone: bool)
    | AsyncClose(id: uint64, written: bool)
    | Cancel
    | CollectAll
    | CloseCollected(id: uint64)

  function With(e: Egress, k: nat, st: UpstreamStream): Egress
    requires k < |e.streams|
  {
    e.(streams := e.streams[k := st])
  }

  /** The loop context of a stream ends when it is closed, when either loop returns, or with the session. */
  predicate Stopping(e: Egress, st: UpstreamStream) {
    st.done || e.cancelled || st.reader.ReaderDone? || st.writer.WriterDone?
  }

  function StreamStep(e: Egress, k: nat, s: StreamAction): Option<Egress>
    requires k < |e.streams|
  {
    var st := e.streams[k];
    match s
    case Dial(ok) =>
      if !st.dial.Dialing? then None
      else if ok then Some(With(e, k, st.(dial := Dialed, reader := ReadUpstream, writer := WriterLoop)))
      else Some(With(e, k, st.(dial := RunClosing)))
    case Read(data, failed) =>
      if !st.reader.ReadUpstream? || |data| > STREAM_CHUNK_SIZE || st.sender.sequence + 1 >= UINT64_LIMIT then None
      else if data == [] then
        Some(if failed || Stopping(e, st) then With(e, k, st.(reader := ReaderDone)) else e)
      else
        Some(With(e, k, st.(sender := Chunked(st.sender, data),
                            reader := WriteBack(DataFrame(st.id, st.sender.sequence, data), failed))))
    case WriteFrame(ok) =>
      if !st.reader.WriteBack? || !LoopFrame(st.reader.frame) then None
      else if !ok then Some(With(e, k, st.(reader := ReaderDone)))
      else
        var next := if st.reader.failed || Stopping(e, st) then ReaderDone else ReadUpstream;
        Some(With(e, k, st.(reader := next)).(sent := e.sent + {Wire(st.reader.frame)}))
    case Write(n, failed) =>
      if !st.writer.WriterLoop? || !WriteOutcome(st.receiver, n, failed) then None else
      var (r, t) := Take(st.receiver, n, failed);
      Some(With(e, k, st.(receiver := r, writer := if t in {Skipped, Written} then WriterLoop else WriterDone)))
    case WriterExits =>
      if !st.writer.WriterLoop? || !Stopping(e, st) then None else Some(With(e, k, st.(writer := WriterDone)))
    case RunReturns =>
      if st.dial.Dialed? && st.reader.ReaderDone? && st.writer.WriterDone? then Some(With(e, k, st.(dial := RunClosing)))
      else None
    case RunCloses(written) =>
      if st.dial.RunClosing? then Some(CloseStream(With(e, k, st.(dial := RunDone)), st.id, true, written)) else None
  }

  datatype Queueing = Accepted | Closed | Overflow

  function QueueOutcome(st: UpstreamStream, preferDone: bool): Queueing {
    if st.done && (preferDone || |st.receiver.inbound| >= INBOUND_QUEUE_SIZE) then Closed
    else if |st.receiver.inbound| < INBOUND_QUEUE_SIZE then Accepted
    else Overflow
  }

  /** queueInboundFrame: a full queue drops the frame and leaves the closing to a goroutine of its own. */
  function QueueInbound(e: Egress, preferDone: bool): Option<Egress> {
    if e.handling.None? || e.handling.value.0 >= |e.streams| then None else
    var (k, f) := e.handling.value;
    var st, e1 := e.streams[k], e.(handling := None);
    match QueueOutcome(st, preferDone)
    case Accepted => Some(With(e1, k, st.(receiver := Queued(st.receiver, f))))
    case Closed => Some(e1)
    case Overflow => Some(e1.(asyncCloses := e1.asyncCloses + multiset{st.id}))
  }

  function Step(e: Egress, a: Action): Option<Egress> {
    match a
    case OnStream(k, s) => if k < |e.streams| then StreamStep(e, k, s) else None
    case Queue(preferDone) => QueueInbound(e, preferDone)
    case AsyncClose(id, written) =>
      if id in e.asyncCloses then
        Some(CloseStream(e.(asyncCloses := e.asyncCloses - multiset{id}), id, true, written))
      else None
    case Cancel => Some(e.(cancelled := true))
    case CollectAll => Some(e.(closing := e.closing + e.open.Keys))
    case CloseCollected(id) =>
      if id in e.closing then Some(CloseStream(e.(closing := e.closing - {id}), id, false, false)) else None
  }

  // ----- invariants

  predicate Framing(r: ReaderPc) { !r.ReaderDone? }

  predicate Running(w: WriterPc) { !w.WriterDone? }

  predicate StreamOk(e: Egress, k: nat)
    requires k < |e.streams|
  {
    var st := e.streams[k];
    && SenderOk(st.sender, Framing(st.reader))
    && (st.reader.WriteBack? ==> st.reader.frame.kind == STREAM_DATA && FrameOf(st.reader.frame, st.id, st.sender.chunks))
    && (Mapped(e, k) <==> !st.done)
    && st.closes <= (if st.done && !st.quiet then 1 else 0)
    && (st.dial.Dialing? ==> st.reader.ReaderIdle? && st.writer.WriterIdle?)
    && st.opening < |e.openings| && e.openings[st.opening] == st.id
    && (forall j :: 0 <= j < k ==> e.streams[j].opening < st.opening)
  }

  /** The first stream with an id: the only one when no id was opened twice. */
  function Find(streams: seq<UpstreamStream>, id: nat): (k: nat)
    ensures k <= |streams|
    ensures k < |streams| ==> streams[k].id == id
    ensures forall j :: 0 <= j < k ==> streams[j].id != id
  {
    if streams == [] || streams[0].id == id then 0 else 1 + Find(streams[1..], id)
  }

  predicate SingleUpstream(e: Egress) {
    forall j, k :: 0 <= j < k < |e.streams| ==> e.streams[j].id != e.streams[k].id
  }

  /** Chunks read from the upstream connection of a stream id. */
  function SourceChunks(e: Egress, id: nat): seq<Bytes> {
    var k := Find(e.streams, id);
    if k < |e.streams| then e.streams[k].sender.chunks else []
  }

  predicate SentKind(e: Egress, b: Bytes) {
    ReadDatagram(b).Ok? && ReadDatagram(b).value.kind in {STREAM_DATA, STREAM_CLOSE} &&
    Find(e.streams, ReadDatagram(b).value.streamID) < |e.streams|
  }

  /** A datagram on the link to the client speaks about a stream that was opened here and carries its bytes. */
  predicate SentFrom(e: Egress, b: Bytes) {
    SentKind(e, b) &&
    var f := ReadDatagram(b).value;
    FrameOf(f, f.streamID, SourceChunks(e, f.streamID))
  }

  ghost predicate Inv(e: Egress) {
    && (forall k :: 0 <= k < |e.streams| ==> StreamOk(e, k))
    && (forall id :: id in e.open ==> e.open[id] < |e.streams| && e.streams[e.open[id]].id == id)
    && (forall b :: b in e.sent ==> SentKind(e, b))
    && (e.handling.Some? ==> e.handling.value.0 < |e.streams|)
    && (SingleUpstream(e) ==> forall b :: b in e.sent ==> SentFrom(e, b))
    && (e.fault == Some(AlreadyOpen) ==> Repeats(e.openings))
  }

  /** Some id was opened more than once. */
  predicate Repeats(ids: seq<uint64>) {
    exists i, j :: 0 <= i < j < |ids| && ids[i] == ids[j]
  }

  ghost predicate Extends(e: Egress, e': Egress) {
    && |e.streams| <= |e'.streams|
    && e.openings <= e'.openings
    && (forall k :: 0 <= k < |e.streams| ==>
          && e'.streams[k].id == e.streams[k].id
          && e.streams[k].sender.chunks <= e'.streams[k].sender.chunks
          && (e.streams[k].done ==> e'.streams[k].done && e'.streams[k].quiet == e.streams[k].quiet &&
                                    e'.streams[k].closes == e.streams[k].closes))
  }

  lemma SingleBefore(e: Egress, e': Egress)
    requires Extends(e, e') && SingleUpstream(e')
    ensures SingleUpstream(e)
  {
  }

  lemma SourceGrows(e: Egress, e': Egress, id: nat)
    requires Extends(e, e') && Find(e.streams, id) < |e.streams|
    ensures Find(e'.streams, id) == Find(e.streams, id)
    ensures SourceChunks(e, id) <= SourceChunks(e', id)
  {
    var k, k' := Find(e.streams, id), Find(e'.streams, id);
    assert e'.streams[k].id == id;
    assert k' <= k;
    assert k' < |e.streams| && e.streams[k'].id == e'.streams[k'].id;
  }

  lemma SentFromExtends(e: Egress, e': Egress, b: Bytes)
    requires Extends(e, e') && SentKind(e, b)
    ensures SentKind(e', b) && (SentFrom(e, b) ==> SentFrom(e', b))
  {
    SourceGrows(e, e', ReadDatagram(b).value.streamID);
  }

  /** What was sent before stays right, so only new datagrams need a look. */
  lemma SentCarries(e: Egress, e': Egress, more: set<Bytes>)
    requires Inv(e) && Extends(e, e') && e'.sent == e.sent + more
    requires forall b :: b in more ==> SentKind(e', b) && (SingleUpstream(e') ==> SentFrom(e', b))
    ensures forall b :: b in e'.sent ==> SentKind(e', b)
    ensures SingleUpstream(e') ==> forall b :: b in e'.sent ==> SentFrom(e', b)
  {
    forall b | b in e'.sent ensures SentKind(e', b) && (SingleUpstream(e') ==> SentFrom(e', b)) {
      if b !in more {
        SentFromExtends(e, e', b);
      }
    }
  }

  /** A frame that stream k puts on the link is found there as its own. */
  lemma OwnFrame(e: Egress, k: nat, f: Frame)
    requires k < |e.streams| && FrameOf(f, e.streams[k].id, e.streams[k].sender.chunks) && f.kind in {STREAM_DATA, STREAM_CLOSE}
    ensures SentKind(e, Wire(f)) && (SingleUpstream(e) ==> SentFrom(e, Wire(f)))
  {
    LoopFramesArrive(f);
    assert Find(e.streams, f.streamID) <= k;
    if SingleUpstream(e) {
      assert Find(e.streams, f.streamID) == k;
    }
  }

  lemma OtherStream(e: Egress, e': Egress, k: nat, j: nat)
    requires Inv(e) && k < |e.streams| && j < |e.streams| && j != k && |e'.streams| == |e.streams|
    requires e'.openings == e.openings && e'.streams[j] == e.streams[j]
    requires forall m :: 0 <= m < |e.streams| ==> e'.streams[m].opening == e.streams[m].opening
    requires e'.open == e.open || (Mapped(e, k) && e'.open == e.open - {e.streams[k].id})
    ensures StreamOk(e', j)
  {
    assert StreamOk(e, j) && StreamOk(e, k);
    assert Mapped(e', j) <==> Mapped(e, j);
  }

  /** One stream changed and at most one frame of it was written: the rest carries over. */
  lemma OneStream(e: Egress, e': Egress, k: nat, wrote: Option<Frame>)
    requires Inv(e) && k < |e.streams| && |e'.streams| == |e.streams| && e'.openings == e.openings
    requires forall j :: 0 <= j < |e.streams| && j != k ==> e'.streams[j] == e.streams[j]
    requires e'.streams[k].id == e.streams[k].id && e'.streams[k].opening == e.streams[k].opening
    requires e.streams[k].sender.chunks <= e'.streams[k].sender.chunks
    requires e.streams[k].done ==> e'.streams[k].done && e'.streams[k].quiet == e.streams[k].quiet &&
                                   e'.streams[k].closes == e.streams[k].closes
    requires e'.open == e.open || (Mapped(e, k) && e'.open == e.open - {e.streams[k].id})
    requires StreamOk(e', k)
    requires wrote.Some? ==> FrameOf(wrote.value, e'.streams[k].id, e'.streams[k].sender.chunks) &&
                             wrote.value.kind in {STREAM_DATA, STREAM_CLOSE}
    requires e'.sent == if wrote.Some? then e.sent + {Wire(wrote.value)} else e.sent
    requires (e'.handling == e.handling || e'.handling.None?) && e'.fault == e.fault
    ensures Inv(e') && Extends(e, e')
  {
    assert Extends(e, e');
    forall j | 0 <= j < |e'.streams| ensures StreamOk(e', j) {
      if j != k {
        OtherStream(e, e', k, j);
      }
    }
    if wrote.Some? {
      OwnFrame(e', k, wrote.value);
    }
    SentCarries(e, e', if wrote.Some? then {Wire(wrote.value)} else {});
  }

  /** A change of one stream's own fields. */
  lemma WithKeeps(e: Egress, k: nat, st: UpstreamStream)
    requires Inv(e) && k < |e.streams|
    requires st.id == e.streams[k].id && st.opening == e.streams[k].opening && st.done == e.streams[k].done
    requires st.quiet == e.streams[k].quiet && st.closes == e.streams[k].closes
    requires e.streams[k].sender.chunks <= st.sender.chunks
    requires SenderOk(st.sender, Framing(st.reader))
    requires st.reader.WriteBack? ==> st.reader.frame.kind == STREAM_DATA && FrameOf(st.reader.frame, st.id, st.sender.chunks)
    requires st.dial.Dialing? ==> st.reader.ReaderIdle? && st.writer.WriterIdle?
    ensures Inv(With(e, k, st)) && Extends(e, With(e, k, st))
  {
    assert StreamOk(e, k);
    OneStream(e, With(e, k, st), k, None);
  }

  lemma CloseKeeps(e: Egress, id: uint64, notify: bool, written: bool)
    requires Inv(e)
    ensures Inv(CloseStream(e, id, notify, written)) && Extends(e, CloseStream(e, id, notify, written))
  {
    if id in e.open {
      var k := e.open[id];
      assert StreamOk(e, k);
      OneStream(e, CloseStream(e, id, notify, written), k, if notify && written then Some(CloseFrame(id)) else None);
    }
  }

  /** Closing a stream that is in the map takes its id out, and writes its one close frame exactly if notice is to be
      given and the write succeeds; nothing else changes. */
  lemma CloseExactly(e: Egress, id: uint64, notify: bool, written: bool)
    requires Inv(e) && id in e.open
    ensures e.open[id] < |e.streams|
    ensures var e', k := CloseStream(e, id, notify, written), e.open[id];
            && e'.open == e.open - {id} && |e'.streams| == |e.streams|
            && e'.sent == (if notify && written then e.sent + {Wire(CloseFrame(id))} else e.sent)
            && e.streams[k].id == id && !e.streams[k].done && e.streams[k].closes == 0
            && e'.streams[k].done && e'.streams[k].closes == (if notify && written then 1 else 0)
            && (forall j :: 0 <= j < |e.streams| && j != k ==> e'.streams[j] == e.streams[j])
  {
    assert StreamOk(e, e.open[id]);
  }

  lemma ExtendsTransitive(a: Egress, b: Egress, c: Egress)
    requires Extends(a, b) && Extends(b, c)
    ensures Extends(a, c)
  {
  }

  lemma WriteFrameKeeps(e: Egress, k: nat, s: StreamAction)
    requires Inv(e) && k < |e.streams| && s.WriteFrame? && StreamStep(e, k, s).Some?
    ensures Inv(StreamStep(e, k, s).value) && Extends(e, StreamStep(e, k, s).value)
  {
    assert StreamOk(e, k);
    var e' := StreamStep(e, k, s).value;
    OneStream(e, e', k, if s.ok then Some(e.streams[k].reader.frame) else None);
  }

  lemma ReadKeeps(e: Egress, k: nat, s: StreamAction)
    requires Inv(e) && k < |e.streams| && s.Read? && StreamStep(e, k, s).Some?
    ensures Inv(StreamStep(e, k, s).value) && Extends(e, StreamStep(e, k, s).value)
  {
    var st := e.streams[k];
    assert StreamOk(e, k);
    if s.data != [] {
      ChunkedOk(st.sender, s.data, st.id);
    }
    WithKeeps(e, k, StreamStep(e, k, s).value.streams[k]);
  }

  lemma RunClosesKeeps(e: Egress, k: nat, s: StreamAction)
    requires Inv(e) && k < |e.streams| && s.RunCloses? && StreamStep(e, k, s).Some?
    ensures Inv(StreamStep(e, k, s).value) && Extends(e, StreamStep(e, k, s).value)
  {
    var st := e.streams[k];
    assert StreamOk(e, k);
    WithKeeps(e, k, st.(dial := RunDone));
    var m := With(e, k, st.(dial := RunDone));
    var e' := CloseStream(m, st.id, true, s.written);
    CloseKeeps(m, st.id, true, s.written);
    ExtendsTransitive(e, m, e');
    assert StreamStep(e, k, s) == Some(e');
  }

  lemma DialKeeps(e: Egress, k: nat, s: StreamAction)
    requires Inv(e) && k < |e.streams| && s.Dial? && StreamStep(e, k, s).Some?
    ensures Inv(StreamStep(e, k, s).value) && Extends(e, StreamStep(e, k, s).value)
  {
    var st := e.streams[k];
    assert StreamOk(e, k);
    WithKeeps(e, k, if s.ok then st.(dial := Dialed, reader := ReadUpstream, writer := WriterLoop) else st.(dial := RunClosing));
  }

  lemma RunReturnsKeeps(e: Egress, k: nat, s: StreamAction)
    requires Inv(e) && k < |e.streams| && s.RunReturns? && StreamStep(e, k, s).Some?
    ensures Inv(StreamStep(e, k, s).value) && Extends(e, StreamStep(e, k, s).value)
  {
    assert StreamOk(e, k);
    WithKeeps(e, k, e.streams[k].(dial := RunClosing));
  }

  lemma WriterKeeps(e: Egress, k: nat, s: StreamAction)
    requires Inv(e) && k < |e.streams| && (s.Write? || s.WriterExits?) && StreamStep(e, k, s).Some?
    ensures Inv(StreamStep(e, k, s).value) && Extends(e, StreamStep(e, k, s).value)
  {
    assert StreamOk(e, k);
    WithKeeps(e, k, StreamStep(e, k, s).value.streams[k]);
  }

  lemma StreamStepKeeps(e: Egress, k: nat, s: StreamAction)
    requires Inv(e) && k < |e.streams| && StreamStep(e, k, s).Some?
    ensures Inv(StreamStep(e, k, s).value) && Extends(e, StreamStep(e, k, s).value)
  {
    if s.Read? {
      ReadKeeps(e, k, s);
    } else if s.WriteFrame? {
      WriteFrameKeeps(e, k, s);
    } else if s.RunCloses? {
      RunClosesKeeps(e, k, s);
    } else if s.Dial? {
      DialKeeps(e, k, s);
    } else if s.RunReturns? {
      RunReturnsKeeps(e, k, s);
    } else {
      WriterKeeps(e, k, s);
    }
  }

  /** Only bookkeeping outside the streams changed. */
  lemma SameStreams(e: Egress, e': Egress)
    requires Inv(e) && e'.streams == e.streams && e'.open == e.open && e'.sent == e.sent
    requires e.openings <= e'.openings
    requires e'.handling.Some? ==> e'.handling.value.0 < |e'.streams|
    requires e'.fault == Some(AlreadyOpen) ==> (e'.fault == e.fault && e'.openings == e.openings) || Repeats(e'.openings)
    ensures Inv(e') && Extends(e, e')
  {
    forall k | 0 <= k < |e'.streams| ensures StreamOk(e', k) {
      assert StreamOk(e, k);
    }
    SentCarries(e, e', {});
  }

  lemma RepeatsGrows(ids: seq<uint64>, ids': seq<uint64>)
    requires ids <= ids'
    ensures Repeats(ids) ==> Repeats(ids')
  {
    if Repeats(ids) {
      var i, j :| 0 <= i < j < |ids| && ids[i] == ids[j];
      assert ids'[i] == ids'[j];
    }
  }

  lemma RefusedOpenKeeps(e: Egress, f: Frame)
    requires Inv(e) && f.kind == STREAM_OPEN && f.streamID in e.open
    ensures Inv(HandleFrame(e, f)) && Extends(e, HandleFrame(e, f))
  {
    var e' := HandleFrame(e, f);
    var st := e.streams[e.open[f.streamID]];
    assert StreamOk(e, e.open[f.streamID]);
    assert e'.openings[st.opening] == e'.openings[|e.openings|];
    SameStreams(e, e');
  }

  lemma NewStreamOk(e: Egress, f: Frame, k: nat)
    requires Inv(e) && f.kind == STREAM_OPEN && f.streamID !in e.open && k <= |e.streams|
    ensures StreamOk(HandleFrame(e, f), k)
  {
    var e' := HandleFrame(e, f);
    if k < |e.streams| {
      assert StreamOk(e, k);
    } else {
      assert Concat([]) == [];
      forall j | 0 <= j < k ensures e'.streams[j].opening < e'.streams[k].opening {
        assert StreamOk(e, j);
      }
    }
  }

  lemma NewStreamKeeps(e: Egress, f: Frame)
    requires Inv(e) && f.kind == STREAM_OPEN && f.streamID !in e.open
    ensures Inv(HandleFrame(e, f)) && Extends(e, HandleFrame(e, f))
  {
    var e' := HandleFrame(e, f);
    RepeatsGrows(e.openings, e'.openings);
    forall k | 0 <= k < |e'.streams| ensures StreamOk(e', k) {
      NewStreamOk(e, f, k);
    }
    SentCarries(e, e', {});
  }

  lemma OpenKeeps(e: Egress, f: Frame)
    requires Inv(e) && f.kind == STREAM_OPEN
    ensures Inv(HandleFrame(e, f)) && Extends(e, HandleFrame(e, f))
  {
    if f.streamID in e.open {
      RefusedOpenKeeps(e, f);
    } else {
      NewStreamKeeps(e, f);
    }
  }

  lemma HandleFrameKeeps(e: Egress, f: Frame)
    requires Inv(e)
    ensures Inv(HandleFrame(e, f)) && Extends(e, HandleFrame(e, f))
  {
    if f.kind == STREAM_OPEN {
      OpenKeeps(e, f);
    } else if f.kind == STREAM_CLOSE {
      CloseKeeps(e, f.streamID, false, false);
    } else {
      SameStreams(e, HandleFrame(e, f));
    }
  }

  lemma ReceiveKeeps(e: Egress, datagram: Bytes)
    requires Inv(e)
    ensures Inv(ReceiveFrame(e, datagram)) && Extends(e, ReceiveFrame(e, datagram))
  {
    match ReadDatagram(datagram)
    case Err(_) => SameStreams(e, ReceiveFrame(e, datagram));
    case Ok(f) =>
      HandleFrameKeeps(e, f);
  }

  lemma AcceptedKeeps(e: Egress, preferDone: bool)
    requires Inv(e) && QueueInbound(e, preferDone).Some? && QueueOutcome(e.streams[e.handling.value.0], preferDone).Accepted?
    ensures Inv(QueueInbound(e, preferDone).value) && Extends(e, QueueInbound(e, preferDone).value)
  {
    assert StreamOk(e, e.handling.value.0);
    OneStream(e, QueueInbound(e, preferDone).value, e.handling.value.0, None);
  }

  lemma QueueKeeps(e: Egress, preferDone: bool)
    requires Inv(e) && QueueInbound(e, preferDone).Some?
    ensures Inv(QueueInbound(e, preferDone).value) && Extends(e, QueueInbound(e, preferDone).value)
  {
    if QueueOutcome(e.streams[e.handling.value.0], preferDone).Accepted? {
      AcceptedKeeps(e, preferDone);
    } else {
      SameStreams(e, QueueInbound(e, preferDone).value);
    }
  }

  lemma CloseAllKeeps(e: Egress)
    requires Inv(e)
    ensures Inv(CloseAll(e)) && Extends(e, CloseAll(e))
  {
    var e' := CloseAll(e);
    assert e'.open == map[];
    forall k | 0 <= k < |e'.streams| ensures ClosedAt(e, e', k) {
      assert StreamOk(e, k);
    }
    forall k | 0 <= k < |e'.streams| ensures StreamOk(e', k) {
      assert StreamOk(e, k) && ClosedAt(e, e', k);
      forall j | 0 <= j < k ensures e'.streams[j].opening < e'.streams[k].opening {
        assert ClosedAt(e, e', j);
      }
    }
    forall k | 0 <= k < |e.streams|
      ensures e'.streams[k].id == e.streams[k].id && e'.streams[k].sender == e.streams[k].sender
      ensures e.streams[k].done ==> e'.streams[k] == e.streams[k]
    {
      assert ClosedAt(e, e', k);
    }
    assert Extends(e, e');
    SentCarries(e, e', {});
  }

  predicate ClosedAt(e: Egress, e': Egress, k: nat) {
    k < |e.streams| && k < |e'.streams| &&
    e'.streams[k] == (if e.streams[k].done then e.streams[k] else e.streams[k].(done := true, quiet := true))
  }

  lemma StepKeeps(e: Egress, a: Action)
    requires Inv(e) && Step(e, a).Some?
    ensures Inv(Step(e, a).value) && Extends(e, Step(e, a).value)
  {
    match a
    case OnStream(k, s) => StreamStepKeeps(e, k, s);
    case Queue(preferDone) => QueueKeeps(e, preferDone);
    case AsyncClose(id, written) =>
      var m := e.(asyncCloses := e.asyncCloses - multiset{id});
      SameStreams(e, m);
      CloseKeeps(m, id, true, written);
      ExtendsTransitive(e, m, Step(e, a).value);
    case Cancel => SameStreams(e, Step(e, a).value);
    case CollectAll => SameStreams(e, Step(e, a).value);
    case CloseCollected(id) =>
      var m := e.(closing := e.closing - {id});
      SameStreams(e, m);
      CloseKeeps(m, id, false, false);
      ExtendsTransitive(e, m, Step(e, a).value);
  }

  /** If the link hands over the open frame of no id twice, no two upstream connections share an id. */
  lemma OpenedOnceIsSingle(e: Egress)
    requires Inv(e) && !Repeats(e.openings)
    ensures SingleUpstream(e) && e.fault != Some(AlreadyOpen)
  {
    forall j, k | 0 <= j < k < |e.streams| ensures e.streams[j].id != e.streams[k].id {
      assert StreamOk(e, j) && StreamOk(e, k);
    }
  }

  // ----- second upstreams

  /** Every id that was ever opened has a stream: its first open frame made one. */
  ghost predicate OpeningsOk(e: Egress) { forall id :: id in e.openings ==> Find(e.streams, id) < |e.streams| }

  /** An open frame for an id that was opened before and is no longer open. */
  predicate Reopens(e: Egress, f: Frame) { f.kind == STREAM_OPEN && f.streamID in e.openings && f.streamID !in e.open }

  /** A stream was added under an id that another one already had. */
  ghost predicate AddsSecond(e: Egress, e': Egress) {
    exists k :: |e.streams| <= k < |e'.streams| && Find(e.streams, e'.streams[k].id) < |e.streams|
  }

  lemma FindsMember(streams: seq<UpstreamStream>, k: nat)
    requires k < |streams|
    ensures Find(streams, streams[k].id) <= k
  {
  }

  lemma OpeningsCarry(e: Egress, e': Egress)
    requires OpeningsOk(e) && Extends(e, e') && e'.openings == e.openings
    ensures OpeningsOk(e')
  {
    forall id | id in e'.openings ensures Find(e'.streams, id) < |e'.streams| {
      SourceGrows(e, e', id);
    }
  }

  lemma OpeningsGrow(e: Egress, e': Egress, k: nat)
    requires OpeningsOk(e) && Extends(e, e') && k < |e'.streams| && e'.openings == e.openings + [e'.streams[k].id]
    ensures OpeningsOk(e')
  {
    forall id | id in e'.openings ensures Find(e'.streams, id) < |e'.streams| {
      if id in e.openings {
        SourceGrows(e, e', id);
      } else {
        FindsMember(e'.streams, k);
      }
    }
  }

  lemma WhatIsAdded(e: Egress, f: Frame)
    ensures var e' := HandleFrame(e, f);
            && e'.openings == (if f.kind == STREAM_OPEN then e.openings + [f.streamID] else e.openings)
            && if f.kind == STREAM_OPEN && f.streamID !in e.open
               then |e'.streams| == |e.streams| + 1 && e'.streams[|e.streams|].id == f.streamID
               else |e'.streams| == |e.streams|
  {
  }

  lemma HandleKeepsOpenings(e: Egress, f: Frame)
    requires Inv(e) && OpeningsOk(e)
    ensures OpeningsOk(HandleFrame(e, f))
  {
    WhatIsAdded(e, f);
    HandleFrameKeeps(e, f);
    if f.kind == STREAM_OPEN {
      OpeningsGrow(e, HandleFrame(e, f), if f.streamID in e.open then e.open[f.streamID] else |e.streams|);
    } else {
      OpeningsCarry(e, HandleFrame(e, f));
    }
  }

  lemma OpenedBefore(e: Egress, id: uint64)
    requires Inv(e) && OpeningsOk(e)
    ensures id in e.openings <==> Find(e.streams, id) < |e.streams|
  {
    var k := Find(e.streams, id);
    if k < |e.streams| {
      assert StreamOk(e, k);
      assert e.openings[e.streams[k].opening] == id;
    }
  }

  /** Handling a frame adds a second upstream stream for an id if and only if it is an open frame for an id opened
      before and no longer open. */
  lemma SecondExactly(e: Egress, f: Frame)
    requires Inv(e) && OpeningsOk(e)
    ensures AddsSecond(e, HandleFrame(e, f)) <==> Reopens(e, f)
  {
    WhatIsAdded(e, f);
    OpenedBefore(e, f.streamID);
  }

  /** Ids stay single exactly as long as no second stream is added. */
  lemma SingleExactly(e: Egress, e': Egress)
    requires Extends(e, e') && |e'.streams| <= |e.streams| + 1
    ensures SingleUpstream(e') <==> SingleUpstream(e) && !AddsSecond(e, e')
  {
    if SingleUpstream(e') {
      SingleBefore(e, e');
    } else if SingleUpstream(e) {
      var j, k :| 0 <= j < k < |e'.streams| && e'.streams[j].id == e'.streams[k].id;
      assert k == |e.streams| && e.streams[j].id == e'.streams[j].id;
      FindsMember(e.streams, j);
    }
  }

  // ----- receivers

  lemma CloseLeavesReceivers(e: Egress, id: uint64, notify: bool, written: bool, j: nat)
    requires j < |e.streams|
    ensures var e' := CloseStream(e, id, notify, written);
            j < |e'.streams| && e'.streams[j].receiver == e.streams[j].receiver && e'.streams[j].writer == e.streams[j].writer
  {
  }

  /** Steps other than those of the writer loop leave a receiver alone. */
  lemma StreamStepLeavesReceivers(e: Egress, k: nat, s: StreamAction, j: nat)
    requires k < |e.streams| && j < |e.streams| && StreamStep(e, k, s).Some? && !s.Write? && !s.RunCloses?
    requires e.streams[k].dial.Dialing? ==> e.streams[k].writer.WriterIdle?
    ensures j < |StreamStep(e, k, s).value.streams|
    ensures var st, st' := e.streams[j], StreamStep(e, k, s).value.streams[j];
            st'.receiver == st.receiver && (Running(st'.writer) ==> Running(st.writer))
  {
  }

  lemma WriteTurnsReceivers(e: Egress, k: nat, s: StreamAction, j: nat)
    requires k < |e.streams| && j < |e.streams| && StreamStep(e, k, s).Some? && s.Write?
    ensures j < |StreamStep(e, k, s).value.streams|
    ensures var st, st' := e.streams[j], StreamStep(e, k, s).value.streams[j];
            ReceiverStep(st.receiver, Running(st.writer), st'.receiver, Running(st'.writer))
  {
    if j == k {
      assert WriteOutcome(e.streams[j].receiver, s.n, s.failed);
    } else {
      assert StreamStep(e, k, s).value.streams[j] == e.streams[j];
    }
  }

  lemma StreamStepTurnsReceivers(e: Egress, k: nat, s: StreamAction, j: nat)
    requires Inv(e) && k < |e.streams| && j < |e.streams| && StreamStep(e, k, s).Some?
    ensures j < |StreamStep(e, k, s).value.streams|
    ensures var st, st' := e.streams[j], StreamStep(e, k, s).value.streams[j];
            ReceiverStep(st.receiver, Running(st.writer), st'.receiver, Running(st'.writer))
  {
    assert StreamOk(e, k);
    if s.RunCloses? {
      CloseLeavesReceivers(With(e, k, e.streams[k].(dial := RunDone)), e.streams[k].id, true, s.written, j);
    } else if s.Write? {
      WriteTurnsReceivers(e, k, s, j);
    } else {
      StreamStepLeavesReceivers(e, k, s, j);
    }
  }

  /** Outside the frame loop, a receiver only ever moves by a turn of its own writer loop. */
  lemma StepTurnsReceivers(e: Egress, a: Action, j: nat)
    requires Inv(e) && Step(e, a).Some? && !a.Queue? && j < |e.streams|
    ensures j < |Step(e, a).value.streams|
    ensures var st, st' := e.streams[j], Step(e, a).value.streams[j];
            ReceiverStep(st.receiver, Running(st.writer), st'.receiver, Running(st'.writer))
  {
    if a.OnStream? {
      StreamStepTurnsReceivers(e, a.k, a.s, j);
    } else {
      var st, st' := e.streams[j], Step(e, a).value.streams[j];
      assert st'.receiver == st.receiver && st'.writer == st.writer;
    }
  }

  /** Queueing appends the frame being handled to the stream it was looked up for, or drops it. */
  lemma QueueFeedsReceiver(e: Egress, preferDone: bool, j: nat)
    requires Inv(e) && QueueInbound(e, preferDone).Some? && j < |e.streams|
    ensures j < |QueueInbound(e, preferDone).value.streams|
    ensures var st, st' := e.streams[j], QueueInbound(e, preferDone).value.streams[j];
            st'.writer == st.writer &&
            (st'.receiver == st.receiver ||
             (j == e.handling.value.0 && st'.receiver == Queued(st.receiver, e.handling.value.1)))
  {
  }

  lemma StreamStepFrame(e: Egress, k: nat, s: StreamAction)
    requires k < |e.streams| && StreamStep(e, k, s).Some?
    ensures var e' := StreamStep(e, k, s).value; |e'.streams| == |e.streams| && e'.fault == e.fault && e'.handling == e.handling
  {
  }

  lemma CloseStreamFrame(e: Egress, id: uint64, notify: bool, written: bool)
    ensures var e' := CloseStream(e, id, notify, written); |e'.streams| == |e.streams| && e'.fault == e.fault && e'.handling == e.handling
  {
  }

  lemma StepFrame(e: Egress, a: Action)
    requires Step(e, a).Some?
    ensures var e' := Step(e, a).value; |e'.streams| == |e.streams| && e'.fault == e.fault
    ensures var e' := Step(e, a).value; e'.handling == e.handling || e'.handling.None?
  {
    match a
    case OnStream(k, s) => StreamStepFrame(e, k, s);
    case AsyncClose(id, written) => CloseStreamFrame(e.(asyncCloses := e.asyncCloses - multiset{id}), id, true, written);
    case CloseCollected(id) => CloseStreamFrame(e.(closing := e.closing - {id}), id, false, false);
    case _ =>
  }

  lemma StepKeepsOpenings(e: Egress, a: Action)
    requires Step(e, a).Some?
    ensures Step(e, a).value.openings == e.openings
  {
  }

  /** Of the frames a client sends, only an open frame adds a stream, and only for an id in use does it fail. */
  lemma ReceiveFrameFrame(e: Egress, b: Bytes)
    requires Inv(e) && ReadDatagram(b).Ok? && ReadDatagram(b).value.kind in {STREAM_OPEN, STREAM_DATA, STREAM_CLOSE}
    ensures var e', f := ReceiveFrame(e, b), ReadDatagram(b).value;
            && |e.streams| <= |e'.streams|
            && (forall k :: 0 <= k < |e.streams| ==>
                  && e'.streams[k].id == e.streams[k].id
                  && e'.streams[k].receiver == e.streams[k].receiver && e'.streams[k].writer == e.streams[k].writer)
            && (forall k :: |e.streams| <= k < |e'.streams| ==>
                  && e'.streams[k].id == f.streamID
                  && e'.streams[k].receiver == NewReceiver && e'.streams[k].writer == WriterIdle)
            && (e'.fault == e.fault || e'.fault == Some(AlreadyOpen))
            && (e'.handling == e.handling ||
                (f.kind == STREAM_DATA && f.streamID in e.open && e'.handling == Some((e.open[f.streamID], f))))
  {
  }
}
