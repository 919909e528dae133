/** How closing comes to rest: close frames are counted per stream, per id and per run, and what a worker's removal
    collected gets closed. */
module TunnelClosing {
  import opened Wrappers
  import opened Frames
  import opened Tunnel
  import opened TunnelReopen
  import opened TunnelNotices
  import I = TcpIngress
  import E = TcpEgress

  // ----- counting close frames

  function LocalCloses(streams: seq<I.LocalStream>): nat {
    if streams == [] then 0 else streams[0].closes + LocalCloses(streams[1..])
  }

  function UpstreamCloses(streams: seq<E.UpstreamStream>): nat {
    if streams == [] then 0 else streams[0].closes + UpstreamCloses(streams[1..])
  }

  /** The close frames a server session wrote for one id, whichever of its streams they were for. */
  function ClosesFor(streams: seq<E.UpstreamStream>, id: nat): nat {
    if streams == [] then 0 else (if streams[0].id == id then streams[0].closes else 0) + ClosesFor(streams[1..], id)
  }

  function Upstreams(streams: seq<E.UpstreamStream>, id: nat): nat {
    if streams == [] then 0 else (if streams[0].id == id then 1 else 0) + Upstreams(streams[1..], id)
  }

  function ServerCloses(sessions: seq<Session>): nat {
    if sessions == [] then 0 else UpstreamCloses(sessions[0].egress.streams) + ServerCloses(sessions[1..])
  }

  /** Streams ever opened on the server side. */
  function ServerStreams(sessions: seq<Session>): nat {
    if sessions == [] then 0 else |sessions[0].egress.streams| + ServerStreams(sessions[1..])
  }

  lemma {:induction false} LocalBound(streams: seq<I.LocalStream>)
    requires forall k :: 0 <= k < |streams| ==> streams[k].closes <= 1
    ensures LocalCloses(streams) <= |streams|
  {
    if streams != [] {
      LocalBound(streams[1..]);
    }
  }

  lemma {:induction false} UpstreamBound(streams: seq<E.UpstreamStream>, id: nat)
    requires forall k :: 0 <= k < |streams| ==> streams[k].closes <= 1
    ensures UpstreamCloses(streams) <= |streams| && ClosesFor(streams, id) <= Upstreams(streams, id)
  {
    if streams != [] {
      UpstreamBound(streams[1..], id);
    }
  }

  lemma {:induction false} SingleBound(streams: seq<E.UpstreamStream>, id: nat)
    requires forall j, k :: 0 <= j < k < |streams| ==> streams[j].id != streams[k].id
    ensures Upstreams(streams, id) <= 1
    ensures Upstreams(streams, id) == 0 <==> forall k :: 0 <= k < |streams| ==> streams[k].id != id
  {
    if streams != [] {
      var rest := streams[1..];
      forall j, k | 0 <= j < k < |rest| ensures rest[j].id != rest[k].id {
        assert streams[j + 1].id != streams[k + 1].id;
      }
      SingleBound(rest, id);
      if streams[0].id == id {
        forall k | 0 <= k < |rest| ensures rest[k].id != id {
          assert streams[0].id != streams[k + 1].id;
        }
      } else {
        assert forall k :: 0 < k < |streams| ==> streams[k] == rest[k - 1];
      }
    }
  }

  lemma {:induction false} ServerBound(sessions: seq<Session>)
    requires forall c, k :: 0 <= c < |sessions| && 0 <= k < |sessions[c].egress.streams| ==> sessions[c].egress.streams[k].closes <= 1
    ensures ServerCloses(sessions) <= ServerStreams(sessions)
  {
    if sessions != [] {
      forall k | 0 <= k < |sessions[0].egress.streams| ensures sessions[0].egress.streams[k].closes <= 1 {
      }
      UpstreamBound(sessions[0].egress.streams, 0);
      forall c, k | 0 <= c < |sessions[1..]| && 0 <= k < |sessions[1..][c].egress.streams|
        ensures sessions[1..][c].egress.streams[k].closes <= 1
      {
        assert sessions[1..][c] == sessions[c + 1];
      }
      ServerBound(sessions[1..]);
    }
  }

  /** Closing comes to rest: all close frames of a run, of both sides together, are at most as many as the streams
      that were opened. */
  lemma ClosingQuiesces(actions: seq<Action>)
    requires Execute(Start, actions).Some?
    ensures var s := Execute(Start, actions).value;
            LocalCloses(s.ingress.streams) + ServerCloses(s.sessions) <= |s.ingress.streams| + ServerStreams(s.sessions)
  {
    var s := Execute(Start, actions).value;
    ClosesAreBounded(actions);
    forall k | 0 <= k < |s.ingress.streams| ensures s.ingress.streams[k].closes <= 1 {
      assert I.Stream(s.ingress, k + 1).closes <= 1;
    }
    LocalBound(s.ingress.streams);
    ServerBound(s.sessions);
  }

  /** A server session writes at most one close frame per upstream it opened for an id, so at most one per id
      unless it re-opened one. */
  lemma OneServerClosePerId(actions: seq<Action>, c: nat, id: nat)
    requires Execute(Start, actions).Some? && c < |Execute(Start, actions).value.sessions|
    ensures var streams := Execute(Start, actions).value.sessions[c].egress.streams;
            && ClosesFor(streams, id) <= Upstreams(streams, id)
            && (NeverReopens(Start, actions, c) ==> ClosesFor(streams, id) <= 1)
  {
    var e := Execute(Start, actions).value.sessions[c].egress;
    ClosesAreBounded(actions);
    UpstreamBound(e.streams, id);
    SingleExactly(actions, c);
    if E.SingleUpstream(e) {
      SingleBound(e.streams, id);
    }
  }

  // ----- a close from the peer

  /** The stream for which a close frame arrives. */
  predicate PeerCloses(s: System, c: nat, b: Bytes, k: nat) {
    && c < |s.sessions| && ReadDatagram(b).Ok? && ReadDatagram(b).value.kind == STREAM_CLOSE
    && ReadDatagram(b).value.streamID in s.sessions[c].egress.open
    && k == s.sessions[c].egress.open[ReadDatagram(b).value.streamID]
  }

  lemma PeerCloseStep(s: System, c: nat, b: Bytes, k: nat)
    requires Inv(s) && PeerCloses(s, c, b, k) && Step(s, ServerReceives(c, b)).Some?
    ensures var e, e' := s.sessions[c].egress, Step(s, ServerReceives(c, b)).value.sessions[c].egress;
            && k < |e.streams| && !e.streams[k].done
            && k < |e'.streams| && e'.streams[k].done && e'.streams[k].closes == 0
  {
    var e := s.sessions[c].egress;
    assert E.Inv(e) && E.StreamOk(e, k) && E.Mapped(e, k);
    PeerCloseIsQuiet(e, b, k);
  }

  lemma ClosedStays(s: System, c: nat, k: nat, more: seq<Action>)
    requires Inv(s) && Execute(s, more).Some? && c < |s.sessions| && k < |s.sessions[c].egress.streams|
    requires s.sessions[c].egress.streams[k].done
    ensures var s' := Execute(s, more).value;
            && c < |s'.sessions| && k < |s'.sessions[c].egress.streams|
            && s'.sessions[c].egress.streams[k].done
            && s'.sessions[c].egress.streams[k].closes == s.sessions[c].egress.streams[k].closes
  {
    RunKeeps(s, more);
    assert E.Extends(s.sessions[c].egress, Execute(s, more).value.sessions[c].egress);
  }

  /** A stream closed because the peer's close frame arrived never has a close frame written for it, however the
      run goes on. */
  lemma PeerCloseIsNotAnswered(actions: seq<Action>, c: nat, b: Bytes, k: nat, more: seq<Action>)
    requires Execute(Start, actions).Some? && PeerCloses(Execute(Start, actions).value, c, b, k)
    requires Step(Execute(Start, actions).value, ServerReceives(c, b)).Some?
    requires Execute(Step(Execute(Start, actions).value, ServerReceives(c, b)).value, more).Some?
    ensures var s := Execute(Start, actions).value;
            var s' := Execute(Step(s, ServerReceives(c, b)).value, more).value;
            && k < |s.sessions[c].egress.streams| && !s.sessions[c].egress.streams[k].done
            && c < |s'.sessions| && k < |s'.sessions[c].egress.streams|
            && s'.sessions[c].egress.streams[k].done && s'.sessions[c].egress.streams[k].closes == 0
  {
    StartOk();
    RunKeeps(Start, actions);
    var s := Execute(Start, actions).value;
    PeerCloseStep(s, c, b, k);
    StepKeeps(s, ServerReceives(c, b));
    ClosedStays(Step(s, ServerReceives(c, b)).value, c, k, more);
  }

  lemma PeerCloseIsQuiet(e: E.Egress, b: Bytes, k: nat)
    requires ReadDatagram(b).Ok? && ReadDatagram(b).value.kind == STREAM_CLOSE && ReadDatagram(b).value.streamID in e.open
    requires k == e.open[ReadDatagram(b).value.streamID] && k < |e.streams|
    ensures var e' := E.ReceiveFrame(e, b);
            && |e'.streams| == |e.streams| && e'.streams[k] == e.streams[k].(done := true, quiet := true)
            && e'.sent == e.sent
  {
  }

  // ----- removing a worker

  /** Whatever goes on between the collection of a removed worker's streams and their closing one by one, each of
      them is closed or still waits for it. */
  lemma {:induction false} CollectedGetClosed(s: System, more: seq<Action>, ids: set<nat>)
    requires Inv(s) && I.Collected(s.ingress, ids) && Execute(s, more).Some?
    ensures I.Collected(Execute(s, more).value.ingress, ids)
    decreases |more|
  {
    if more != [] {
      StepKeeps(s, more[0]);
      ClosingOnlyShrinks(s, more[0]);
      I.CollectedStays(s.ingress, Step(s, more[0]).value.ingress, ids);
      CollectedGetClosed(Step(s, more[0]).value, more[1..], ids);
    }
  }

  lemma ClosingOnlyShrinks(s: System, a: Action)
    requires Inv(s) && Step(s, a).Some?
    ensures var i' := Step(s, a).value.ingress; forall id :: id in s.ingress.closing ==> id in i'.closing || id !in i'.open
  {
    if a.OnIngress? {
      I.ClosingShrinksByClosing(s.ingress, a.i);
    }
  }

  /** Removing a worker collects its open streams and no other worker's; from then on, in every run, each of them is
      closed or its close is still outstanding. */
  lemma RemovalClosesWhatItCollected(actions: seq<Action>, index: nat, more: seq<Action>)
    requires Execute(Start, actions).Some?
    requires Execute(Step(Execute(Start, actions).value, OnIngress(I.CollectWorker(index))).value, more).Some?
    ensures var i := Execute(Start, actions).value.ingress;
            var i1 := Step(Execute(Start, actions).value, OnIngress(I.CollectWorker(index))).value.ingress;
            var i2 := Execute(Step(Execute(Start, actions).value, OnIngress(I.CollectWorker(index))).value, more).value.ingress;
            && (forall id :: id in i.open && I.Known(i, id) && I.Stream(i, id).workerIndex == index ==> id in i2.closing || id !in i2.open)
            && (forall id :: id in i1.closing && id !in i.closing ==> I.Known(i, id) && I.Stream(i, id).workerIndex == index)
            && (forall id :: I.Known(i, id) ==> I.Stream(i, id).channel < |i.channels|
                                                && i.channels[I.Stream(i, id).channel].workerIndex == I.Stream(i, id).workerIndex)
  {
    StartOk();
    RunKeeps(Start, actions);
    var s := Execute(Start, actions).value;
    var s1 := Step(s, OnIngress(I.CollectWorker(index))).value;
    var ids := I.OfWorker(s.ingress, index);
    StepKeeps(s, OnIngress(I.CollectWorker(index)));
    CollectedGetClosed(s1, more, ids);
    forall id | I.Known(s.ingress, id)
      ensures var c := I.Stream(s.ingress, id).channel;
              c < |s.ingress.channels| && s.ingress.channels[c].workerIndex == I.Stream(s.ingress, id).workerIndex
    {
      assert I.StreamOk(s.ingress, id);
    }
  }

  /** When the client closes all its streams, each of them is closed or still waits for it, in every run from then on. */
  lemma ClosingAllClosesAll(actions: seq<Action>, more: seq<Action>)
    requires Execute(Start, actions).Some?
    requires Execute(Step(Execute(Start, actions).value, OnIngress(I.CollectAll)).value, more).Some?
    ensures var i := Execute(Start, actions).value.ingress;
            var i2 := Execute(Step(Execute(Start, actions).value, OnIngress(I.CollectAll)).value, more).value.ingress;
            forall id :: id in i.open ==> id in i2.closing || id !in i2.open
  {
    StartOk();
    RunKeeps(Start, actions);
    var s := Execute(Start, actions).value;
    StepKeeps(s, OnIngress(I.CollectAll));
    CollectedGetClosed(Step(s, OnIngress(I.CollectAll)).value, more, s.ingress.open);
  }

  // ----- the end of a server session

  predicate EndsOrDone(e: E.Egress, k: nat) { k < |e.streams| && (e.streams[k].done || e.streams[k].id in e.closing) }

  lemma EndingStep(e: E.Egress, a: E.Action, k: nat)
    requires E.Inv(e) && E.Step(e, a).Some? && EndsOrDone(e, k)
    ensures EndsOrDone(E.Step(e, a).value, k)
  {
    E.StepKeeps(e, a);
    match a
    case OnStream(j, s) => StreamStepKeepsClosing(e, j, s);
    case AsyncClose(id, written) => CloseKeepsClosing(e.(asyncCloses := e.asyncCloses - multiset{id}), id, true, written);
    case CloseCollected(id) => CollectedIsClosed(e, id, k);
    case _ =>
  }

  lemma StreamStepKeepsClosing(e: E.Egress, k: nat, s: E.StreamAction)
    requires k < |e.streams| && E.StreamStep(e, k, s).Some?
    ensures E.StreamStep(e, k, s).value.closing == e.closing
  {
  }

  lemma CloseKeepsClosing(e: E.Egress, id: uint64, notify: bool, written: bool)
    ensures E.CloseStream(e, id, notify, written).closing == e.closing
  {
  }

  lemma CollectedIsClosed(e: E.Egress, id: uint64, k: nat)
    requires E.Inv(e) && id in e.closing && EndsOrDone(e, k)
    ensures EndsOrDone(E.Step(e, E.CloseCollected(id)).value, k)
  {
    var m := e.(closing := e.closing - {id});
    E.SameStreams(e, m);
    E.CloseKeeps(m, id, false, false);
    if !e.streams[k].done && e.streams[k].id == id {
      assert E.StreamOk(e, k) && E.Mapped(e, k);
      E.CloseExactly(m, id, false, false);
    }
  }

  lemma ReceiveKeepsClosing(e: E.Egress, b: Bytes)
    ensures E.ReceiveFrame(e, b).closing == e.closing
  {
  }

  lemma EndingSystemStep(s: System, a: Action, c: nat, k: nat)
    requires Inv(s) && Step(s, a).Some? && c < |s.sessions| && EndsOrDone(s.sessions[c].egress, k)
    ensures c < |Step(s, a).value.sessions| && EndsOrDone(Step(s, a).value.sessions[c].egress, k)
  {
    if a.OnEgress? && a.c == c {
      EndingStep(s.sessions[c].egress, a.e, k);
    } else if a.ServerReceives? && a.c == c {
      E.ReceiveKeeps(s.sessions[c].egress, a.datagram);
      ReceiveKeepsClosing(s.sessions[c].egress, a.datagram);
    } else {
      OtherEgress(s, a, c);
    }
  }

  lemma {:induction false} EndingRun(s: System, more: seq<Action>, c: nat, k: nat)
    requires Inv(s) && Execute(s, more).Some? && c < |s.sessions| && EndsOrDone(s.sessions[c].egress, k)
    ensures c < |Execute(s, more).value.sessions| && EndsOrDone(Execute(s, more).value.sessions[c].egress, k)
    decreases |more|
  {
    if more != [] {
      StepKeeps(s, more[0]);
      EndingSystemStep(s, more[0], c, k);
      EndingRun(Step(s, more[0]).value, more[1..], c, k);
    }
  }

  /** When a server session ends, each of its streams is closed or its close is still outstanding, in every run from then
      on. */
  lemma SessionEndClosesAll(actions: seq<Action>, c: nat, k: nat, more: seq<Action>)
    requires Execute(Start, actions).Some? && c < |Execute(Start, actions).value.sessions|
    requires k < |Execute(Start, actions).value.sessions[c].egress.streams|
    requires Execute(Step(Execute(Start, actions).value, OnEgress(c, E.CollectAll)).value, more).Some?
    ensures var s2 := Execute(Step(Execute(Start, actions).value, OnEgress(c, E.CollectAll)).value, more).value;
            c < |s2.sessions| && EndsOrDone(s2.sessions[c].egress, k)
  {
    StartOk();
    RunKeeps(Start, actions);
    var s := Execute(Start, actions).value;
    var e := s.sessions[c].egress;
    assert E.StreamOk(e, k);
    assert !e.streams[k].done ==> E.Mapped(e, k);
    StepKeeps(s, OnEgress(c, E.CollectAll));
    EndingRun(Step(s, OnEgress(c, E.CollectAll)).value, more, c, k);
  }
}
