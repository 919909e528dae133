/** The hello exchange that opens an overlay session. */
module Handshake {
  import opened Wrappers
  import opened Text
  import opened Frames

  datatype Outcome = Established(ingress: string, egress: string) | Failed

  /** The server's answer to the first datagram: nothing, a reject or an acknowledgement. adapterOpened says
      whether the egress adapter could be created; reason stands for the error text put into a reject. */
  function Answer(first: Result<Frame>, egressConfig: string, adapterOpened: bool, reason: Bytes): (Outcome, Option<Frame>) {
    if first.Err? || first.value.kind != HELLO then (Failed, None) else
    var ingress, egress := NormalizeAdapter(first.value.adapter), NormalizeAdapter(egressConfig);
    if !SupportedPair(ingress, egress) || !adapterOpened then (Failed, Some(RejectFrame(reason)))
    else (Established(ingress, egress), Some(HelloFrame(HELLO_ACK, egress)))
  }

  function Conclude(ingress: string, response: Result<Frame>): Outcome {
    if response.Err? || response.value.kind != HELLO_ACK then Failed
    else if !SupportedPair(NormalizeAdapter(ingress), response.value.adapter) then Failed
    else Established(NormalizeAdapter(ingress), response.value.adapter)
  }

  function Received(sent: Option<Frame>): Result<Frame> {
    if sent.None? then Err(Empty) else
    match MarshalBinary(sent.value)
    case Ok(b) => ReadDatagram(b)
    case Err(e) => Err(e)
  }

  /** The whole exchange when all datagrams arrive: the client's and the server's view. */
  function Exchange(ingress: string, egress: string, adapterOpened: bool, reason: Bytes): (Outcome, Outcome) {
    var hello := Received(Some(HelloFrame(HELLO, NormalizeAdapter(ingress))));
    var (server, reply) := Answer(hello, egress, adapterOpened, reason);
    (Conclude(ingress, Received(reply)), server)
  }

  /** Both ends agree: the session stands on both sides or on neither, exactly for a supported pair, and then
      with the same adapter at both ends. */
  lemma ExchangeAgrees(ingress: string, egress: string, adapterOpened: bool, reason: Bytes)
    ensures var (client, server) := Exchange(ingress, egress, adapterOpened, reason);
            && client == server
            && (server.Established? <==> SupportedPair(ingress, egress) && adapterOpened)
            && (server.Established? ==> server.ingress == (if TrimSpace(ingress) == "tcp" then "tcp" else "udp"))
            && (server.Established? ==> server.ingress == server.egress && server.ingress in {"udp", "tcp"})
  {
    NormalizeIsIdempotent(ingress);
    NormalizeIsIdempotent(egress);
    NormalizedNames();
    NormalizedExactly(ingress);
    PairsExactly(ingress, egress);
    var hello := HelloFrame(HELLO, NormalizeAdapter(ingress));
    EncodingFailsExactly(hello);
    if MarshalBinary(hello).Ok? {
      DecodeEncode(hello);
      var ack := HelloFrame(HELLO_ACK, NormalizeAdapter(egress));
      EncodingFailsExactly(ack);
      if MarshalBinary(ack).Ok? {
        DecodeEncode(ack);
      }
      DecodeEncode(RejectFrame(reason));
    }
  }

  /** What the server answers: nothing to anything but a hello, an acknowledgement if the two names go together and the
      adapter opens, and else a reject that gives the reason. */
  lemma AnswerExactly(first: Result<Frame>, egressConfig: string, adapterOpened: bool, reason: Bytes)
    ensures var (server, reply) := Answer(first, egressConfig, adapterOpened, reason);
            var hello := first.Ok? && first.value.kind == 1;
            && (reply.None? <==> !hello)
            && (hello ==>
                  var i, e := TrimSpace(first.value.adapter), TrimSpace(egressConfig);
                  var together := (i in {"", "udp"} && e in {"", "udp"}) || (i == "tcp" && e == "tcp");
                  && (reply.value.kind == 2 <==> together && adapterOpened)
                  && (reply.value.kind != 2 ==> reply.value == RejectFrame(reason) && server == Failed)
                  && (reply.value.kind == 2 ==> server.Established? && reply.value.adapter == server.egress))
  {
    if first.Ok? {
      NormalizeIsIdempotent(first.value.adapter);
      NormalizeIsIdempotent(egressConfig);
      PairsExactly(first.value.adapter, egressConfig);
    }
  }

  /** Whatever arrives instead of the answer, the client never takes up a session with an unsupported pair. */
  lemma ClientOnlyAcceptsSupportedPairs(ingress: string, response: Result<Frame>)
    ensures Conclude(ingress, response).Established? ==>
              response.Ok? && SupportedPair(ingress, response.value.adapter)
  {
    NormalizeIsIdempotent(ingress);
  }
}
