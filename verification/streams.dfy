/** What the two ends of a multiplexed stream share: chunks with sequence numbers on the sending side,
    a bounded queue and an expected sequence number on the receiving side. */
module Streams {
  import opened Frames

  const INBOUND_QUEUE_SIZE := 8
  const WORKER_QUEUE_SIZE := 64

  function Concat(chunks: seq<Bytes>): Bytes {
    if chunks == [] then [] else Concat(chunks[..|chunks| - 1]) + chunks[|chunks| - 1]
  }

  lemma ConcatAppend(chunks: seq<Bytes>, c: Bytes)
    ensures Concat(chunks + [c]) == Concat(chunks) + c
  {
    assert (chunks + [c])[..|chunks|] == chunks;
  }

  lemma {:induction false} ConcatPrefix(chunks: seq<Bytes>, n: nat)
    requires n <= |chunks|
    ensures Concat(chunks[..n]) <= Concat(chunks)
  {
    if n == |chunks| {
      assert chunks[..n] == chunks;
    } else {
      var shorter := chunks[..|chunks| - 1];
      ConcatPrefix(shorter, n);
      assert shorter[..n] == chunks[..n];
    }
  }

  // ----- the sending side

  /** sequence numbers the next chunk; consumed is everything read from the connection so far and chunks
      the part of it that was put into frames. */
  datatype Sender = Sender(sequence: nat, consumed: Bytes, chunks: seq<Bytes>)

  const NewSender := Sender(0, [], [])

  /** While the reader loop runs, everything read has been framed. */
  predicate SenderOk(s: Sender, running: bool) {
    s.sequence == |s.chunks| && Concat(s.chunks) <= s.consumed && (running ==> Concat(s.chunks) == s.consumed)
  }

  /** One chunk read and given the next sequence number. */
  function Chunked(s: Sender, data: Bytes): Sender {
    Sender(s.sequence + 1, s.consumed + data, s.chunks + [data])
  }

  function Discarded(s: Sender, data: Bytes): Sender {
    s.(consumed := s.consumed + data)
  }

  // ----- the receiving side

  /** produced is everything written to the connection so far. */
  datatype Receiver = Receiver(inbound: seq<Frame>, sequence: nat, produced: Bytes)

  const NewReceiver := Receiver([], 0, [])

  datatype Taken = Skipped | OutOfOrder | Written | WriteFailed

  /** A write may fail after any part of the payload was written; a successful one writes all of it. */
  predicate WriteOutcome(r: Receiver, n: nat, failed: bool) {
    r.inbound != [] && n <= |r.inbound[0].payload| && (failed || n == |r.inbound[0].payload|)
  }

  /** One turn of the writer loop: take a frame, check its number, write its payload. */
  function Take(r: Receiver, n: nat, failed: bool): (Receiver, Taken)
    requires WriteOutcome(r, n, failed)
  {
    var f := r.inbound[0];
    var rest := r.(inbound := r.inbound[1..]);
    if f.kind != STREAM_DATA then (rest, Skipped)
    else if f.sequence != r.sequence then (rest, OutOfOrder)
    else
      (Receiver(r.inbound[1..], r.sequence + 1, r.produced + f.payload[..n]), if failed then WriteFailed else Written)
  }

  function Queued(r: Receiver, f: Frame): Receiver {
    r.(inbound := r.inbound + [f])
  }

  // ----- what ties the two together

  /** f speaks about stream id, and if it carries data, it carries the chunk its number names. */
  predicate FrameOf(f: Frame, id: nat, chunks: seq<Bytes>) {
    && LoopFrame(f) && f.kind != DATAGRAM && f.streamID == id
    && (f.kind == STREAM_DATA ==> f.sequence < |chunks| && f.payload == chunks[f.sequence])
  }

  /** The bytes written are the sender's bytes from the start, cut off anywhere once the loop has ended. */
  predicate Follows(r: Receiver, running: bool, id: nat, chunks: seq<Bytes>) {
    && r.sequence <= |chunks|
    && r.produced <= Concat(chunks[..r.sequence])
    && (running ==> r.produced == Concat(chunks[..r.sequence]))
    && forall f :: f in r.inbound ==> f.kind == STREAM_DATA && FrameOf(f, id, chunks)
  }

  /** All that may happen to a receiver inside its writer loop. */
  ghost predicate ReceiverStep(r: Receiver, running: bool, r': Receiver, running': bool) {
    || (r' == r && (running' ==> running))
    || (running && exists n, failed :: WriteOutcome(r, n, failed) && Take(r, n, failed).0 == r' &&
                                       (running' ==> Take(r, n, failed).1 in {Skipped, Written}))
  }

  lemma TakeFollows(r: Receiver, n: nat, failed: bool, id: nat, chunks: seq<Bytes>)
    requires Follows(r, true, id, chunks) && WriteOutcome(r, n, failed)
    ensures var (r', t) := Take(r, n, failed); Follows(r', t == Written, id, chunks) && t != Skipped
  {
    var f := r.inbound[0];
    assert f in r.inbound;
    if f.sequence == r.sequence {
      var k := r.sequence;
      assert chunks[..k + 1] == chunks[..k] + [chunks[k]];
      ConcatAppend(chunks[..k], chunks[k]);
    }
  }

  lemma StepFollows(r: Receiver, running: bool, r': Receiver, running': bool, id: nat, chunks: seq<Bytes>)
    requires Follows(r, running, id, chunks) && ReceiverStep(r, running, r', running')
    ensures Follows(r', running', id, chunks)
  {
    if !(r' == r && (running' ==> running)) {
      var n, failed :| WriteOutcome(r, n, failed) && Take(r, n, failed).0 == r' &&
                       (running' ==> Take(r, n, failed).1 in {Skipped, Written});
      TakeFollows(r, n, failed, id, chunks);
    }
  }

  lemma FollowsGrows(r: Receiver, running: bool, id: nat, chunks: seq<Bytes>, chunks': seq<Bytes>)
    requires Follows(r, running, id, chunks) && chunks <= chunks'
    ensures Follows(r, running, id, chunks')
  {
    assert chunks'[..r.sequence] == chunks[..r.sequence];
  }

  lemma FollowsIsPrefix(r: Receiver, running: bool, id: nat, s: Sender, reading: bool)
    requires Follows(r, running, id, s.chunks) && SenderOk(s, reading)
    ensures r.produced <= s.consumed
  {
    ConcatPrefix(s.chunks, r.sequence);
  }

  lemma ChunkedOk(s: Sender, data: Bytes, id: uint64)
    requires SenderOk(s, true) && |data| <= STREAM_CHUNK_SIZE && s.sequence < UINT64_LIMIT
    ensures SenderOk(Chunked(s, data), true) && s.chunks <= Chunked(s, data).chunks
    ensures FrameOf(DataFrame(id, s.sequence, data), id, Chunked(s, data).chunks)
  {
    ConcatAppend(s.chunks, data);
  }
}
