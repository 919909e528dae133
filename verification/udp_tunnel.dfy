/** Datagrams through the tunnel: dispatch over the ready workers, and replies to the latest local sender. */
module UdpTunnel {
  import opened Wrappers
  import opened Frames
  import Workers

  const WORKER_QUEUE_SIZE := 64

  type Addr = string

  /** What decides where replies go, in the order it happened. */
  datatype Event = Dispatched(index: nat, sender: Addr, payload: Bytes) | Removed(index: nat)

  /** The local sender whose datagram was last dispatched to a worker since its route was last removed. */
  function LastSender(history: seq<Event>, index: nat): Option<Addr> {
    if history == [] then None else
    var before := history[..|history| - 1];
    match history[|history| - 1]
    case Dispatched(i, a, _) => if i == index then Some(a) else LastSender(before, index)
    case Removed(i) => if i == index then None else LastSender(before, index)
  }

  /** The route table holds exactly the last senders, under route id index + 1. */
  ghost predicate RoutesFollow(routes: map<nat, Addr>, history: seq<Event>) {
    && 0 !in routes
    && forall index: nat ::
         LastSender(history, index) == if index + 1 in routes then Some(routes[index + 1]) else None
  }

  lemma DispatchFollows(routes: map<nat, Addr>, history: seq<Event>, index: nat, sender: Addr, payload: Bytes)
    requires RoutesFollow(routes, history)
    ensures RoutesFollow(routes[Workers.RouteIDForWorker(index) := sender], history + [Dispatched(index, sender, payload)])
  {
    assert (history + [Dispatched(index, sender, payload)])[..|history|] == history;
  }

  lemma RemoveFollows(routes: map<nat, Addr>, history: seq<Event>, index: nat)
    requires RoutesFollow(routes, history)
    ensures RoutesFollow(routes - {Workers.RouteIDForWorker(index)}, history + [Removed(index)])
  {
    assert (history + [Removed(index)])[..|history|] == history;
  }

  // ----- the tunnel as a transition system

  /** A worker generation: its channel, its link in both directions, and the route its far end replies to. Over a
      plain relay there is no server session, and lastRoute is the forwarder's own. */
  datatype Worker = Worker(
    index: nat,
    plain: bool,
    queue: seq<Frame>,
    up: set<Bytes>,
    down: set<Bytes>,
    lastRoute: Option<uint64>,
    kindError: bool)

  /** A reply handed to a local sender over worker w, when the history had a given length. */
  datatype Reply = Reply(w: nat, sender: Addr, payload: Bytes, at: nat)

  /** A datagram that passed between worker w's far end and its upstream. */
  datatype Passed = Passed(w: nat, payload: Bytes)

  /** `outs` were written upstream, `answers` read from there. */
  datatype System = System(
    routes: map<nat, Addr>,
    workers: seq<Worker>,
    history: seq<Event>,
    outs: seq<Passed>,
    answers: seq<Passed>,
    replies: seq<Reply>)

  const Start := System(map[], [], [], [], [], [])

  datatype Action =
    | NewWorker(index: nat, plain: bool)
    | LocalDatagram(sender: Addr, payload: Bytes, w: nat)
    | Forward(w: nat, written: bool)
    | ServerReceives(w: nat, datagram: Bytes, written: bool)
    | Upstream(w: nat, payload: Bytes)
    | ClientReceives(w: nat, datagram: Bytes)
    | RemoveWorker(index: nat)

  function With(s: System, w: nat, x: Worker): System
    requires w < |s.workers|
  {
    s.(workers := s.workers[w := x])
  }

  /** UDPIngress.Deliver: a frame of another kind is an error, one without a route is dropped. */
  function Deliver(s: System, w: nat, f: Frame): System
    requires w < |s.workers|
  {
    if f.kind != DATAGRAM then With(s, w, s.workers[w].(kindError := true))
    else if f.routeID !in s.routes then s
    else s.(replies := s.replies + [Reply(w, s.routes[f.routeID], f.payload, |s.history|)])
  }

  /** The ingress loop: the chosen worker becomes the sender's way back even when its queue is full. */
  function Dispatch(s: System, sender: Addr, payload: Bytes, w: nat): Option<System> {
    if w >= |s.workers| || |payload| > DATAGRAM_BUFFER_SIZE || s.workers[w].index + 1 >= UINT64_LIMIT then None else
    var x := s.workers[w];
    var routeID := Workers.RouteIDForWorker(x.index);
    var s1 := s.(routes := s.routes[routeID := sender], history := s.history + [Dispatched(x.index, sender, payload)]);
    if |x.queue| >= WORKER_QUEUE_SIZE then Some(s1)
    else Some(With(s1, w, x.(queue := x.queue + [DatagramFrame(routeID, payload)])))
  }

  /** A datagram reaches the far end of worker w: its route is the one to reply to, and it is written upstream. */
  function PassOn(s: System, w: nat, x: Worker, f: Frame, written: bool): System
    requires w < |s.workers|
  {
    With(s, w, x.(lastRoute := Some(f.routeID))).(outs := if written then s.outs + [Passed(w, f.payload)] else s.outs)
  }

  /** The sending forwarder: frames on an overlay link, bare payloads on a plain relay. */
  function ForwardStep(s: System, w: nat, written: bool): Option<System> {
    if w >= |s.workers| || s.workers[w].queue == [] then None else
    var x := s.workers[w];
    var f, x1 := x.queue[0], x.(queue := x.queue[1..]);
    if x.plain then
      Some(if f.kind != DATAGRAM then With(s, w, x1.(kindError := true)) else PassOn(s, w, x1, f, written))
    else
      match MarshalBinary(f)
      case Ok(b) => Some(With(s, w, if written then x1.(up := x1.up + {b}) else x1))
      case Err(_) => Some(With(s, w, x1))
  }

  function Step(s: System, a: Action): Option<System> {
    match a
    case NewWorker(index, plain) =>
      Some(s.(workers := s.workers + [Worker(index, plain, [], {}, {}, None, false)]))
    case LocalDatagram(sender, payload, w) => Dispatch(s, sender, payload, w)
    case Forward(w, written) => ForwardStep(s, w, written)
    case ServerReceives(w, b, written) =>
      if w >= |s.workers| || b !in s.workers[w].up then None else
      var x := s.workers[w];
      (match ReadDatagram(b)
       case Err(_) => Some(With(s, w, x.(kindError := true)))
       case Ok(f) =>
         if !(DATAGRAM <= f.kind <= STREAM_CLOSE) then Some(s)
         else if f.kind != DATAGRAM then Some(With(s, w, x.(kindError := true)))
         else Some(PassOn(s, w, x, f, written)))
    case Upstream(w, payload) =>
      if w >= |s.workers| || |payload| > DATAGRAM_BUFFER_SIZE then None else
      var x, s1 := s.workers[w], s.(answers := s.answers + [Passed(w, payload)]);
      if x.lastRoute.None? then Some(s1)
      else if x.plain then Some(Deliver(s1, w, DatagramFrame(x.lastRoute.value, payload)))
      else Some(With(s1, w, x.(down := x.down + {Wire(DatagramFrame(x.lastRoute.value, payload))})))
    case ClientReceives(w, b) =>
      if w >= |s.workers| || b !in s.workers[w].down then None else
      (match ReadDatagram(b)
       case Err(_) => Some(With(s, w, s.workers[w].(kindError := true)))
       case Ok(f) => if f.kind in {DATAGRAM, STREAM_DATA, STREAM_CLOSE} then Some(Deliver(s, w, f)) else Some(s))
    case RemoveWorker(index) =>
      Some(s.(routes := s.routes - {Workers.RouteIDForWorker(index)}, history := s.history + [Removed(index)]))
  }

  function Execute(s: System, actions: seq<Action>): Option<System>
    decreases |actions|
  {
    if actions == [] then Some(s) else
    match Step(s, actions[0])
    case None => None
    case Some(s') => Execute(s', actions[1..])
  }

  /** Some local sender's datagram with this payload was dispatched to the worker with this index. */
  predicate WasDispatched(history: seq<Event>, index: nat, payload: Bytes) {
    exists k :: 0 <= k < |history| && history[k].Dispatched? && history[k].index == index && history[k].payload == payload
  }

  predicate FrameFor(f: Frame, index: nat) {
    f.kind == DATAGRAM && LoopFrame(f) && f.routeID == index + 1
  }

  predicate UpFrame(s: System, f: Frame, index: nat) { FrameFor(f, index) && WasDispatched(s.history, index, f.payload) }

  predicate DownFrame(s: System, f: Frame, w: nat)
    requires w < |s.workers|
  {
    FrameFor(f, s.workers[w].index) && Passed(w, f.payload) in s.answers
  }

  predicate WorkerOk(s: System, w: nat)
    requires w < |s.workers|
  {
    var x := s.workers[w];
    && (forall f :: f in x.queue ==> UpFrame(s, f, x.index))
    && (forall b :: b in x.up ==> ReadDatagram(b).Ok? && UpFrame(s, ReadDatagram(b).value, x.index))
    && (forall b :: b in x.down ==> ReadDatagram(b).Ok? && DownFrame(s, ReadDatagram(b).value, w))
    && (x.lastRoute.Some? ==> x.lastRoute.value == x.index + 1)
    && !x.kindError
  }

  predicate OutOk(s: System, o: Passed) { o.w < |s.workers| && WasDispatched(s.history, s.workers[o.w].index, o.payload) }

  predicate ReplyOk(s: System, r: Reply) {
    && r.w < |s.workers| && r.at <= |s.history|
    && LastSender(s.history[..r.at], s.workers[r.w].index) == Some(r.sender)
    && Passed(r.w, r.payload) in s.answers
  }

  ghost predicate Inv(s: System) {
    && RoutesFollow(s.routes, s.history)
    && (forall w :: 0 <= w < |s.workers| ==> WorkerOk(s, w))
    && (forall k :: 0 <= k < |s.outs| ==> OutOk(s, s.outs[k]))
    && (forall k :: 0 <= k < |s.replies| ==> ReplyOk(s, s.replies[k]))
  }

  /** Nothing that was read, dispatched or set up is forgotten. */
  predicate Extends(s: System, s': System) {
    && s.history <= s'.history && s.answers <= s'.answers && |s.workers| <= |s'.workers|
    && (forall w :: 0 <= w < |s.workers| ==> s'.workers[w].index == s.workers[w].index)
  }

  lemma DispatchedBefore(s: System, s': System, index: nat, payload: Bytes)
    requires Extends(s, s') && WasDispatched(s.history, index, payload)
    ensures WasDispatched(s'.history, index, payload)
  {
    var k :| 0 <= k < |s.history| && s.history[k].Dispatched? && s.history[k].index == index && s.history[k].payload == payload;
    assert s'.history[k] == s.history[k];
  }

  lemma PastCarries(s: System, s': System)
    requires Inv(s) && Extends(s, s')
    ensures forall k :: 0 <= k < |s.replies| ==> ReplyOk(s', s.replies[k])
    ensures forall k :: 0 <= k < |s.outs| ==> OutOk(s', s.outs[k])
  {
    forall k | 0 <= k < |s.replies| ensures ReplyOk(s', s.replies[k]) {
      assert ReplyOk(s, s.replies[k]);
      assert s'.history[..s.replies[k].at] == s.history[..s.replies[k].at];
    }
    forall k | 0 <= k < |s.outs| ensures OutOk(s', s.outs[k]) {
      assert OutOk(s, s.outs[k]);
      DispatchedBefore(s, s', s.workers[s.outs[k].w].index, s.outs[k].payload);
    }
  }

  /** What was on its way still is something that was read. */
  lemma WorkerCarries(s: System, s': System, w: nat)
    requires Inv(s) && Extends(s, s') && w < |s.workers|
    requires var x, x' := s.workers[w], s'.workers[w];
             && (forall f :: f in x'.queue ==> f in x.queue || UpFrame(s', f, x.index))
             && (forall b :: b in x'.up ==> b in x.up || (ReadDatagram(b).Ok? && UpFrame(s', ReadDatagram(b).value, x.index)))
             && (forall b :: b in x'.down ==> b in x.down || (ReadDatagram(b).Ok? && DownFrame(s', ReadDatagram(b).value, w)))
             && (x'.lastRoute == x.lastRoute || x'.lastRoute == Some(x.index + 1)) && !x'.kindError
    ensures WorkerOk(s', w)
  {
    var x, x' := s.workers[w], s'.workers[w];
    assert WorkerOk(s, w);
    forall f | f in x'.queue ensures UpFrame(s', f, x.index) {
      if f in x.queue {
        DispatchedBefore(s, s', x.index, f.payload);
      }
    }
    forall b | b in x'.up ensures ReadDatagram(b).Ok? && UpFrame(s', ReadDatagram(b).value, x.index) {
      if b in x.up {
        DispatchedBefore(s, s', x.index, ReadDatagram(b).value.payload);
      }
    }
  }

  lemma SameWorkers(s: System, s': System)
    requires Inv(s) && Extends(s, s') && s'.workers == s.workers
    ensures forall w :: 0 <= w < |s'.workers| ==> WorkerOk(s', w)
  {
    forall w | 0 <= w < |s'.workers| ensures WorkerOk(s', w) {
      assert WorkerOk(s, w);
      WorkerCarries(s, s', w);
    }
  }

  /** Only worker w changed, and it is right. */
  lemma OneWorker(s: System, s': System, w: nat)
    requires Inv(s) && Extends(s, s') && w < |s.workers| == |s'.workers| && WorkerOk(s', w)
    requires forall v :: 0 <= v < |s.workers| && v != w ==> s'.workers[v] == s.workers[v]
    ensures forall v :: 0 <= v < |s'.workers| ==> WorkerOk(s', v)
  {
    forall v | 0 <= v < |s'.workers| ensures WorkerOk(s', v) {
      if v != w {
        assert WorkerOk(s, v);
        WorkerCarries(s, s', v);
      }
    }
  }

  lemma DeliverKeeps(s: System, w: nat, f: Frame)
    requires Inv(s) && w < |s.workers| && DownFrame(s, f, w)
    ensures Inv(Deliver(s, w, f))
  {
    var s' := Deliver(s, w, f);
    PastCarries(s, s');
    SameWorkers(s, s');
    assert s.history[..|s.history|] == s.history;
  }

  lemma DispatchKeeps(s: System, sender: Addr, payload: Bytes, w: nat)
    requires Inv(s) && Dispatch(s, sender, payload, w).Some?
    ensures Inv(Dispatch(s, sender, payload, w).value)
  {
    var s', x := Dispatch(s, sender, payload, w).value, s.workers[w];
    DispatchFollows(s.routes, s.history, x.index, sender, payload);
    PastCarries(s, s');
    assert s'.history[|s.history|] == Dispatched(x.index, sender, payload);
    assert WorkerOk(s, w) && WasDispatched(s'.history, x.index, payload);
    WorkerCarries(s, s', w);
    OneWorker(s, s', w);
  }

  /** A datagram goes to the end of the worker's queue, or is dropped exactly if that is full; either way its sender is the
      one to reply to. */
  lemma DispatchExactly(s: System, sender: Addr, payload: Bytes, w: nat)
    requires Dispatch(s, sender, payload, w).Some?
    ensures var s', x := Dispatch(s, sender, payload, w).value, s.workers[w];
            && |s'.workers| == |s.workers|
            && s'.workers[w].queue == (if |x.queue| < 64 then x.queue + [DatagramFrame(x.index + 1, payload)] else x.queue)
            && LastSender(s'.history, x.index) == Some(sender)
            && (forall v :: 0 <= v < |s.workers| && v != w ==> s'.workers[v] == s.workers[v])
  {
    assert Dispatch(s, sender, payload, w).value.history[..|s.history|] == s.history;
  }

  lemma PassOnKeeps(s: System, w: nat, x: Worker, f: Frame, written: bool)
    requires Inv(s) && w < |s.workers| && UpFrame(s, f, s.workers[w].index)
    requires x == s.workers[w] || (s.workers[w].queue != [] && x == s.workers[w].(queue := s.workers[w].queue[1..]))
    ensures Inv(PassOn(s, w, x, f, written))
  {
    var s' := PassOn(s, w, x, f, written);
    assert WorkerOk(s, w);
    PastCarries(s, s');
    WorkerCarries(s, s', w);
    OneWorker(s, s', w);
  }

  lemma ForwardKeeps(s: System, w: nat, written: bool)
    requires Inv(s) && ForwardStep(s, w, written).Some?
    ensures Inv(ForwardStep(s, w, written).value)
  {
    var x := s.workers[w];
    var f, s' := x.queue[0], ForwardStep(s, w, written).value;
    assert WorkerOk(s, w) && f in x.queue;
    if x.plain {
      PassOnKeeps(s, w, x.(queue := x.queue[1..]), f, written);
    } else {
      LoopFramesArrive(f);
      PastCarries(s, s');
      WorkerCarries(s, s', w);
      OneWorker(s, s', w);
    }
  }

  lemma UpstreamKeeps(s: System, w: nat, payload: Bytes)
    requires Inv(s) && Step(s, Upstream(w, payload)).Some?
    ensures Inv(Step(s, Upstream(w, payload)).value)
  {
    var x, s1, s' := s.workers[w], s.(answers := s.answers + [Passed(w, payload)]), Step(s, Upstream(w, payload)).value;
    PastCarries(s, s1);
    SameWorkers(s, s1);
    assert Inv(s1) && WorkerOk(s1, w);
    if x.lastRoute.Some? {
      var f := DatagramFrame(x.lastRoute.value, payload);
      LoopFramesArrive(f);
      if x.plain {
        DeliverKeeps(s1, w, f);
      } else {
        PastCarries(s1, s');
        WorkerCarries(s1, s', w);
        OneWorker(s1, s', w);
      }
    }
  }

  lemma NewWorkerKeeps(s: System, index: nat, plain: bool)
    requires Inv(s)
    ensures Inv(Step(s, NewWorker(index, plain)).value)
  {
    var s' := Step(s, NewWorker(index, plain)).value;
    PastCarries(s, s');
    forall w | 0 <= w < |s'.workers| ensures WorkerOk(s', w) {
      if w < |s.workers| {
        assert WorkerOk(s, w);
        WorkerCarries(s, s', w);
      }
    }
  }

  lemma RemoveKeeps(s: System, index: nat)
    requires Inv(s)
    ensures Inv(Step(s, RemoveWorker(index)).value)
  {
    RemoveFollows(s.routes, s.history, index);
    PastCarries(s, Step(s, RemoveWorker(index)).value);
    SameWorkers(s, Step(s, RemoveWorker(index)).value);
  }

  lemma StepKeeps(s: System, a: Action)
    requires Inv(s) && Step(s, a).Some?
    ensures Inv(Step(s, a).value)
  {
    match a
    case NewWorker(index, plain) => NewWorkerKeeps(s, index, plain);
    case LocalDatagram(sender, payload, w) => DispatchKeeps(s, sender, payload, w);
    case Forward(w, written) => ForwardKeeps(s, w, written);
    case ServerReceives(w, b, written) =>
      assert WorkerOk(s, w);
      PassOnKeeps(s, w, s.workers[w], ReadDatagram(b).value, written);
    case Upstream(w, payload) => UpstreamKeeps(s, w, payload);
    case ClientReceives(w, b) =>
      assert WorkerOk(s, w);
      DeliverKeeps(s, w, ReadDatagram(b).value);
    case RemoveWorker(index) => RemoveKeeps(s, index);
  }

  lemma {:induction false} RunKeeps(s: System, actions: seq<Action>)
    requires Inv(s) && Execute(s, actions).Some?
    ensures Inv(Execute(s, actions).value)
    decreases |actions|
  {
    if actions != [] {
      StepKeeps(s, actions[0]);
      RunKeeps(Step(s, actions[0]).value, actions[1..]);
    }
  }

  /** In every run, each reply that came over a worker went to the local sender last dispatched to that worker's
      index since its route was last removed, and no side met a frame of a kind it cannot handle. */
  lemma RepliesReachTheLastSender(actions: seq<Action>)
    requires Execute(Start, actions).Some?
    ensures var s := Execute(Start, actions).value;
            && (forall k :: 0 <= k < |s.replies| ==> ReplyOk(s, s.replies[k]))
            && (forall w :: 0 <= w < |s.workers| ==> !s.workers[w].kindError)
  {
    RunKeeps(Start, actions);
    var s := Execute(Start, actions).value;
    forall w | 0 <= w < |s.workers| ensures !s.workers[w].kindError {
      assert WorkerOk(s, w);
    }
  }

  /** In every run, each datagram written upstream over a worker is one that a local sender's datagram dispatched to that
      worker's index carried, byte for byte, and each reply carries one that was read from that worker's upstream. */
  lemma PayloadsAreKept(actions: seq<Action>)
    requires Execute(Start, actions).Some?
    ensures var s := Execute(Start, actions).value;
            && (forall k :: 0 <= k < |s.outs| ==>
                  s.outs[k].w < |s.workers| && WasDispatched(s.history, s.workers[s.outs[k].w].index, s.outs[k].payload))
            && (forall k :: 0 <= k < |s.replies| ==> Passed(s.replies[k].w, s.replies[k].payload) in s.answers)
  {
    RunKeeps(Start, actions);
    var s := Execute(Start, actions).value;
    forall k | 0 <= k < |s.outs|
      ensures s.outs[k].w < |s.workers| && WasDispatched(s.history, s.workers[s.outs[k].w].index, s.outs[k].payload)
    {
      assert OutOk(s, s.outs[k]);
    }
    forall k | 0 <= k < |s.replies| ensures Passed(s.replies[k].w, s.replies[k].payload) in s.answers {
      assert ReplyOk(s, s.replies[k]);
    }
  }

  /** A reply is dropped exactly when no sender is in force for the worker it came over; otherwise that sender gets what
      the datagram carried. */
  lemma ReplyIsDroppedExactly(actions: seq<Action>, w: nat, b: Bytes)
    requires Execute(Start, actions).Some?
    requires Step(Execute(Start, actions).value, ClientReceives(w, b)).Some?
    ensures var s := Execute(Start, actions).value;
            var s' := Step(s, ClientReceives(w, b)).value;
            ReadDatagram(b).Ok? &&
            match LastSender(s.history, s.workers[w].index)
            case None => s' == s
            case Some(sender) => s' == s.(replies := s.replies + [Reply(w, sender, ReadDatagram(b).value.payload, |s.history|)])
  {
    RunKeeps(Start, actions);
    var s := Execute(Start, actions).value;
    assert WorkerOk(s, w) && DownFrame(s, ReadDatagram(b).value, w);
  }

  // ----- there and back

  /** A local datagram over an idle overlay worker, and an answer to it. */
  function ThereAndBack(sender: Addr, payload: Bytes, answer: Bytes, w: nat, route: uint64): seq<Action>
    requires |payload| <= DATAGRAM_BUFFER_SIZE && |answer| <= DATAGRAM_BUFFER_SIZE
  {
    [LocalDatagram(sender, payload, w), Forward(w, true), ServerReceives(w, Wire(DatagramFrame(route, payload)), true),
     Upstream(w, answer), ClientReceives(w, Wire(DatagramFrame(route, answer)))]
  }

  lemma Leg(s: System, actions: seq<Action>, s1: System)
    requires actions != [] && Step(s, actions[0]) == Some(s1)
    ensures Execute(s, actions) == Execute(s1, actions[1..])
  {
  }

  lemma GoesThere(s: System, sender: Addr, payload: Bytes, w: nat) returns (s3: System)
    requires w < |s.workers| && !s.workers[w].plain && s.workers[w].queue == [] && s.workers[w].index + 1 < UINT64_LIMIT
    requires |payload| <= DATAGRAM_BUFFER_SIZE
    ensures var route := s.workers[w].index + 1;
            && Execute(s, ThereAndBack(sender, payload, [], w, route)[..3]) == Some(s3)
            && |s3.workers| == |s.workers| && s3.outs == s.outs + [Passed(w, payload)] && s3.replies == s.replies
            && s3.routes == s.routes[route := sender] && !s3.workers[w].plain && s3.workers[w].lastRoute == Some(route)
  {
    var x := s.workers[w];
    var f := DatagramFrame(x.index + 1, payload);
    LoopFramesArrive(f);
    var all := ThereAndBack(sender, payload, [], w, x.index + 1)[..3];
    var s1 := Step(s, all[0]).value;
    assert s1.workers[w].queue == [f];
    Leg(s, all, s1);
    var s2 := Step(s1, all[1]).value;
    assert Wire(f) in s2.workers[w].up;
    Leg(s1, all[1..], s2);
    s3 := Step(s2, all[2]).value;
    Leg(s2, all[2..], s3);
    assert all[3..] == [];
  }

  lemma ComesBack(s3: System, answer: Bytes, w: nat, sender: Addr)
    requires w < |s3.workers| && !s3.workers[w].plain && |answer| <= DATAGRAM_BUFFER_SIZE && s3.workers[w].lastRoute.Some?
    requires s3.workers[w].lastRoute.value in s3.routes && s3.routes[s3.workers[w].lastRoute.value] == sender
    ensures var back := [Upstream(w, answer), ClientReceives(w, Wire(DatagramFrame(s3.workers[w].lastRoute.value, answer)))];
            var s5 := Execute(s3, back);
            && s5.Some? && s5.value.outs == s3.outs
            && s5.value.replies == s3.replies + [Reply(w, sender, answer, |s3.history|)]
  {
    var f := DatagramFrame(s3.workers[w].lastRoute.value, answer);
    var back := [Upstream(w, answer), ClientReceives(w, Wire(f))];
    LoopFramesArrive(f);
    var s4 := Step(s3, back[0]).value;
    assert Wire(f) in s4.workers[w].down;
    Leg(s3, back, s4);
    var s5 := Step(s4, back[1]).value;
    assert back[1..] == [back[1]];
    Leg(s4, back[1..], s5);
    assert back[1..][1..] == [];
  }

  /** From any state, a datagram to an idle worker can get there, and its answer back to its sender, unchanged. */
  lemma DatagramsGetThrough(s: System, sender: Addr, payload: Bytes, answer: Bytes, w: nat)
    requires w < |s.workers| && !s.workers[w].plain && s.workers[w].queue == [] && s.workers[w].index + 1 < UINT64_LIMIT
    requires |payload| <= DATAGRAM_BUFFER_SIZE && |answer| <= DATAGRAM_BUFFER_SIZE
    ensures var s' := Execute(s, ThereAndBack(sender, payload, answer, w, s.workers[w].index + 1));
            && s'.Some? && s'.value.outs == s.outs + [Passed(w, payload)]
            && |s'.value.replies| == |s.replies| + 1
            && var r := s'.value.replies[|s.replies|]; r.w == w && r.sender == sender && r.payload == answer
  {
    var route := s.workers[w].index + 1;
    var s3 := GoesThere(s, sender, payload, w);
    ComesBack(s3, answer, w, sender);
    var all := ThereAndBack(sender, payload, answer, w, route);
    assert all[..3] == ThereAndBack(sender, payload, [], w, route)[..3];
    InTwo(s, all[..3], all[3..]);
    assert all == all[..3] + all[3..];
    assert all[3..] == [Upstream(w, answer), ClientReceives(w, Wire(DatagramFrame(route, answer)))];
  }

  lemma {:induction false} InTwo(s: System, a: seq<Action>, b: seq<Action>)
    requires Execute(s, a).Some?
    ensures Execute(s, a + b) == Execute(Execute(s, a).value, b)
    decreases |a|
  {
    if a == [] {
      assert a + b == b;
    } else {
      assert (a + b)[1..] == a[1..] + b;
      InTwo(Step(s, a[0]).value, a[1..], b);
    }
  }

  // ----- the ingress and the egress as objects

  class UDPIngress {
    const workers: Workers.WorkerSet<nat>
    var routes: map<nat, Addr>
    ghost var history: seq<Event>

    ghost predicate Valid()
      reads this
    {
      RoutesFollow(routes, history)
    }

    constructor ()
      ensures Valid() && history == [] && fresh(workers) && workers.Value() == Workers.Ring([], 0)
    {
      workers := new Workers.WorkerSet();
      routes, history := map[], [];
    }

    /** One datagram read from a local sender: which worker channel gets which frame, if any. */
    method Dispatch(sender: Addr, payload: Bytes) returns (out: Option<(nat, Frame)>)
      requires Valid() && (forall r :: r in workers.workers ==> r.index + 1 < UINT64_LIMIT)
      modifies this, workers
      ensures Valid() && workers.Value() == Workers.Advanced(old(workers.Value()))
      ensures match Workers.Served(old(workers.Value()))
              case None => out == None && history == old(history)
              case Some(r) => history == old(history) + [Dispatched(r.index, sender, payload)] &&
                              out == Some((r.outbound, DatagramFrame(r.index + 1, payload)))
    {
      var served := workers.Next();
      if served.None? {
        return None;
      }
      var worker := served.value;
      DispatchFollows(routes, history, worker.index, sender, payload);
      routes := routes[Workers.RouteIDForWorker(worker.index) := sender];
      history := history + [Dispatched(worker.index, sender, payload)];
      return Some((worker.outbound, DatagramFrame(Workers.RouteIDForWorker(worker.index), payload)));
    }

    /** Where a frame from a worker goes: to the last sender of the worker its route id names. */
    method Deliver(f: Frame) returns (failed: bool, receiver: Option<Addr>)
      requires Valid()
      ensures failed <==> f.kind != DATAGRAM
      ensures !failed ==> receiver == (if f.routeID == 0 then None else LastSender(history, f.routeID - 1))
    {
      if f.kind != DATAGRAM {
        return true, None;
      }
      if f.routeID !in routes {
        return false, None;
      }
      return false, Some(routes[f.routeID]);
    }

    method Remove(index: nat)
      requires Valid()
      modifies this, workers
      ensures Valid() && history == old(history) + [Removed(index)]
      ensures workers.Value() == Workers.Removed(old(workers.Value()), index)
    {
      workers.Remove(index);
      RemoveFollows(routes, history, index);
      routes := routes - {Workers.RouteIDForWorker(index)};
      history := history + [Removed(index)];
    }
  }

  /** The route a far end replies to: the server's UDP egress and the plain forwarder's lastRouteID keep it alike. */
  class ReplyRoute {
    var routeID: uint64
    var ready: bool

    ghost function Value(): Option<uint64>
      reads this
    {
      if ready then Some(routeID) else None
    }

    constructor ()
      ensures Value() == None
    {
      routeID, ready := 0, false;
    }

    method Store(id: uint64)
      modifies this
      ensures Value() == Some(id)
    {
      routeID, ready := id, true;
    }

    method Load() returns (route: Option<uint64>)
      ensures route == Value()
    {
      if !ready {
        return None;
      }
      return Some(routeID);
    }
  }
}
