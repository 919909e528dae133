/** A whole supervised session: the loop, its channels, the runner goroutines, the restart timers and the
    ingress, interleaved in any order. */
module SupervisedRun {
  import opened Wrappers
  import opened Supervisor

  /** A runner goroutine before it reported ready, after it, and after it ended. */
  datatype RunnerPc = Launched | Serving | Gone

  /** What is under way: the three channels and the restart timers, as bags, so that the loop may take events in
      any order. A runner is named by its index and generation. */
  datatype Bags = Bags(ready: multiset<ReadyEvent>, results: multiset<ResultEvent>, restarts: multiset<nat>, timers: multiset<nat>)

  /** What happened so far; nothing depends on it. */
  datatype History = History(
    readyPosted: set<(nat, nat)>,
    resultPosted: set<(nat, nat)>,
    resultSeen: set<(nat, nat)>,
    scheduled: set<(nat, nat)>,
    readyTaken: nat,
    resultTaken: nat,
    restartTaken: nat,
    cancelledFirst: bool)

  type Runners = map<(nat, nat), RunnerPc>

  datatype Run = Run(
    loop: Loop,
    budget: nat,
    parent: bool,
    bags: Bags,
    ingressCh: Option<bool>,
    ingressRunning: bool,
    runners: Runners,
    history: History)

  function Connections(s: Run): nat { |s.loop.states| }

  /** The loop cancels its context whenever it ends. */
  predicate IsCancelled(s: Run) { s.parent || !s.loop.running }

  function Start(connections: nat, budget: nat): Run {
    Run(FirstLoop(connections), budget, false, Bags(multiset{}, multiset{}, multiset{}, multiset{}), None, true,
        FirstRunners(connections), History({}, {}, {}, {}, 0, 0, 0, false))
  }

  /** One runner of generation 1 for every index. */
  function FirstRunners(n: nat): (r: Runners)
    ensures forall k :: k in r <==> k.0 < n && k.1 == 1
    ensures forall k :: k in r ==> r[k] == Launched
  {
    if n == 0 then map[] else FirstRunners(n - 1)[(n - 1, 1) := Launched]
  }

  datatype Action =
    | RunnerReports(index: nat, generation: nat, posted: bool)
    | RunnerEnds(index: nat, generation: nat, failed: bool, posted: bool)
    | TimerFires(index: nat, posted: bool)
    | IngressEnds(failed: bool)
    | ParentCancels
    | TakeReady(ready: ReadyEvent)
    | TakeResult(result: ResultEvent)
    | TakeRestart(index: nat)
    | TakeIngress
    | TakeCancel

  /** A goroutine can send as long as the buffer has room; only after cancellation may it give up instead. */
  predicate MaySend(s: Run, posted: bool, buffered: nat) {
    if posted then buffered < 2 * Connections(s) else IsCancelled(s)
  }

  function Report(s: Run, i: nat, g: nat, posted: bool): Option<Run> {
    if (i, g) !in s.runners || !s.runners[(i, g)].Launched? || !MaySend(s, posted, |s.bags.ready|) then None else
    Some(s.(runners := s.runners[(i, g) := Serving], bags := BagsReported(s.bags, i, g, posted),
            history := if posted then s.history.(readyPosted := s.history.readyPosted + {(i, g)}) else s.history))
  }

  function BagsReported(b: Bags, i: nat, g: nat, posted: bool): Bags {
    if posted then b.(ready := b.ready + multiset{ReadyEvent(i, g)}) else b
  }

  function End(s: Run, i: nat, g: nat, failed: bool, posted: bool): Option<Run> {
    if (i, g) !in s.runners || s.runners[(i, g)].Gone? || !MaySend(s, posted, |s.bags.results|) then None else
    Some(s.(runners := s.runners[(i, g) := Gone], bags := BagsEnded(s.bags, i, g, failed, posted),
            history := if posted then s.history.(resultPosted := s.history.resultPosted + {(i, g)}) else s.history))
  }

  function BagsEnded(b: Bags, i: nat, g: nat, failed: bool, posted: bool): Bags {
    if posted then b.(results := b.results + multiset{ResultEvent(i, g, failed)}) else b
  }

  function Fire(s: Run, i: nat, posted: bool): Option<Run> {
    if i !in s.bags.timers || !MaySend(s, posted, |s.bags.restarts|) then None else
    Some(s.(bags := BagsFired(s.bags, i, posted)))
  }

  function BagsFired(b: Bags, i: nat, posted: bool): Bags {
    var b1 := b.(timers := b.timers - multiset{i});
    if posted then b1.(restarts := b.restarts + multiset{i}) else b1
  }

  function Handled(s: Run, e: LoopEvent): Loop { Handle(s.loop, e, IsCancelled(s), s.budget) }

  function OnTakenReady(s: Run, e: ReadyEvent): Run {
    s.(loop := Handled(s, Ready(e)), bags := s.bags.(ready := s.bags.ready - multiset{e}),
       history := s.history.(readyTaken := s.history.readyTaken + 1))
  }

  function OnTakenResult(s: Run, e: ResultEvent): Run {
    var again := Restarts(s.loop, e, IsCancelled(s), s.budget);
    s.(loop := Handled(s, Result(e)), bags := BagsAfterResult(s.bags, e, again),
       history := HistoryAfterResult(s.history, e, if again then {(e.index, s.loop.states[e.index].restarts + 1)} else {}))
  }

  /** A restart starts a timer. */
  function BagsAfterResult(b: Bags, e: ResultEvent, again: bool): Bags {
    b.(results := b.results - multiset{e}, timers := if again then b.timers + multiset{e.index} else b.timers)
  }

  function HistoryAfterResult(h: History, e: ResultEvent, restart: set<(nat, nat)>): History {
    h.(resultTaken := h.resultTaken + 1, resultSeen := h.resultSeen + {(e.index, e.generation)},
       scheduled := h.scheduled + restart)
  }

  /** A restart taken before cancellation launches a runner of the next generation. */
  function OnTakenRestart(s: Run, i: nat): Run {
    var s1 := s.(loop := Handled(s, Restart(i)), bags := s.bags.(restarts := s.bags.restarts - multiset{i}),
                 history := s.history.(restartTaken := s.history.restartTaken + 1));
    if IsCancelled(s) || i >= Connections(s) then s1
    else s1.(runners := s.runners[(i, s.loop.states[i].generation + 1) := Launched])
  }

  function Step(s: Run, a: Action): Option<Run> {
    match a
    case RunnerReports(i, g, posted) => Report(s, i, g, posted)
    case RunnerEnds(i, g, failed, posted) => End(s, i, g, failed, posted)
    case TimerFires(i, posted) => Fire(s, i, posted)
    case IngressEnds(failed) =>
      if s.ingressRunning then Some(s.(ingressRunning := false, ingressCh := Some(failed))) else None
    case ParentCancels =>
      if s.parent then None else Some(s.(parent := true, history := s.history.(cancelledFirst := s.loop.running)))
    case TakeReady(e) => if s.loop.running && e in s.bags.ready then Some(OnTakenReady(s, e)) else None
    case TakeResult(e) => if s.loop.running && e in s.bags.results then Some(OnTakenResult(s, e)) else None
    case TakeRestart(i) => if s.loop.running && i in s.bags.restarts then Some(OnTakenRestart(s, i)) else None
    case TakeIngress =>
      if s.loop.running && s.ingressCh.Some? then
        Some(s.(loop := Handled(s, IngressEnded(s.ingressCh.value)), ingressCh := None))
      else None
    case TakeCancel => if s.loop.running && s.parent then Some(s.(loop := Handled(s, Cancelled))) else None
  }

  function Execute(s: Run, actions: seq<Action>): Option<Run>
    decreases |actions|
  {
    if actions == [] then Some(s) else
    match Step(s, actions[0])
    case None => None
    case Some(s') => Execute(s', actions[1..])
  }

  /** What the call returns once the loop has ended and every goroutine has been waited for. */
  function Returned(s: Run): Option<Failure> {
    if s.loop.sessionErr.Some? then s.loop.sessionErr
    else if s.parent then None
    else if s.ingressCh == Some(true) then Some(IngressFailed)
    else None
  }

  // ----- invariants, index by index

  type States = seq<WorkerState>

  /** Everything about one worker index: its state, its current runner, and what is under way for it. */
  datatype View = View(worker: WorkerState, pc: RunnerPc, reported: nat, ended: nat, pending: nat)

  predicate HasRunner(st: States, ru: Runners, i: nat)
    requires i < |st|
  {
    (i, st[i].generation) in ru
  }

  function ViewOf(st: States, ru: Runners, b: Bags, i: nat): View
    requires i < |st| && HasRunner(st, ru, i)
  {
    var g := st[i].generation;
    View(st[i], ru[(i, g)], b.ready[ReadyEvent(i, g)],
         b.results[ResultEvent(i, g, true)] + b.results[ResultEvent(i, g, false)], b.timers[i] + b.restarts[i])
  }

  function Bit(b: bool): nat { if b then 1 else 0 }

  predicate ViewOk(v: View, cancelled: bool, budget: nat) {
    && v.worker.generation >= 1 && v.worker.restarts <= budget
    && v.reported + Bit(v.worker.ready) <= 1 && v.ended <= 1 && v.pending <= 1
    && (v.pc.Launched? ==> v.reported == 0 && !v.worker.ready)
    && (!v.pc.Gone? ==> v.ended == 0 && v.pending == 0)
    && (v.pending == 1 ==> !v.worker.ready && v.reported == 0 && v.ended == 0 && v.worker.restarts == v.worker.generation)
    && (v.pending == 0 ==> v.worker.generation == v.worker.restarts + 1 ||
                           (cancelled && v.worker.generation == v.worker.restarts))
    && (!cancelled && v.pc.Serving? ==> v.reported + Bit(v.worker.ready) == 1)
    && (!cancelled && v.pc.Gone? ==> v.ended + v.pending == 1)
  }

  predicate IndexOk(st: States, ru: Runners, b: Bags, i: nat, cancelled: bool, budget: nat)
    requires i < |st|
  {
    HasRunner(st, ru, i) && ViewOk(ViewOf(st, ru, b, i), cancelled, budget)
  }

  ghost predicate IndicesOk(st: States, ru: Runners, b: Bags, cancelled: bool, budget: nat) {
    forall i :: 0 <= i < |st| ==> IndexOk(st, ru, b, i, cancelled, budget)
  }

  /** Whatever is under way is of the current generation. */
  ghost predicate EventsOk(st: States, b: Bags) {
    && (forall e :: e in b.ready ==> e.index < |st| && e.generation == st[e.index].generation)
    && (forall e :: e in b.results ==> e.index < |st| && e.generation == st[e.index].generation)
    && (forall i :: i in b.timers || i in b.restarts ==> i < |st|)
  }

  /** Runners of earlier generations are gone. */
  ghost predicate RunnersOk(st: States, ru: Runners) {
    forall k :: k in ru ==>
      k.0 < |st| && 1 <= k.1 <= st[k.0].generation && (k.1 < st[k.0].generation ==> ru[k].Gone?)
  }

  /** Every event is counted: posted at most once by a runner, or for a restart number, and then taken or waiting. */
  ghost predicate CountsOk(st: States, ru: Runners, b: Bags, h: History) {
    && h.readyTaken + |b.ready| == |h.readyPosted|
    && (forall k :: k in h.readyPosted ==> k in ru && !ru[k].Launched?)
    && h.resultTaken + |b.results| == |h.resultPosted|
    && (forall k :: k in h.resultPosted ==> k in ru && ru[k].Gone?)
    && h.restartTaken + |b.restarts| + |b.timers| <= |h.scheduled|
    && (forall k :: k in h.scheduled ==> k.0 < |st| && 1 <= k.1 <= st[k.0].restarts)
  }

  /** A runner whose result was consumed is gone, and if it is still the current one, a restart is pending. */
  ghost predicate SeenOk(st: States, ru: Runners, b: Bags, seen: set<(nat, nat)>, cancelled: bool) {
    forall k :: k in seen ==>
      && k in ru && ru[k].Gone? && k.0 < |st|
      && (k.1 == st[k.0].generation && !cancelled ==> b.timers[k.0] + b.restarts[k.0] == 1)
  }

  predicate EndingOk(s: Run) {
    && (s.history.cancelledFirst ==> s.parent && s.loop.sessionErr.None?)
    && (s.loop.running && s.parent ==> s.history.cancelledFirst)
    && (!s.loop.running && s.loop.sessionErr.None? ==> s.parent || (s.ingressCh.None? && !s.ingressRunning))
    && (s.ingressRunning ==> s.ingressCh.None?)
  }

  ghost predicate CrewOk(st: States, ru: Runners, b: Bags, h: History, cancelled: bool, budget: nat) {
    && IndicesOk(st, ru, b, cancelled, budget) && EventsOk(st, b) && RunnersOk(st, ru)
    && CountsOk(st, ru, b, h) && SeenOk(st, ru, b, h.resultSeen, cancelled)
  }

  ghost predicate Inv(s: Run) {
    && LoopOk(s.loop) && EndingOk(s)
    && CrewOk(s.loop.states, s.runners, s.bags, s.history, IsCancelled(s), s.budget)
  }

  // ----- reports, ends and timers

  lemma CurrentRunner(st: States, ru: Runners, b: Bags, c: bool, budget: nat, i: nat, g: nat)
    requires IndicesOk(st, ru, b, c, budget) && RunnersOk(st, ru) && (i, g) in ru && !ru[(i, g)].Gone?
    ensures i < |st| && g == st[i].generation && IndexOk(st, ru, b, i, c, budget) && ViewOf(st, ru, b, i).pc == ru[(i, g)]
  {
  }

  lemma ReportIndices(st: States, ru: Runners, b: Bags, c: bool, budget: nat, i: nat, g: nat, posted: bool)
    requires IndicesOk(st, ru, b, c, budget) && RunnersOk(st, ru)
    requires (i, g) in ru && ru[(i, g)].Launched? && (posted || c)
    ensures IndicesOk(st, ru[(i, g) := Serving], BagsReported(b, i, g, posted), c, budget)
  {
    var ru', b' := ru[(i, g) := Serving], BagsReported(b, i, g, posted);
    CurrentRunner(st, ru, b, c, budget, i, g);
    forall j | 0 <= j < |st| ensures IndexOk(st, ru', b', j, c, budget) {
      assert IndexOk(st, ru, b, j, c, budget);
      var v := ViewOf(st, ru, b, j);
      if j == i {
        assert ViewOf(st, ru', b', j) == v.(pc := Serving, reported := v.reported + Bit(posted));
      } else {
        assert ViewOf(st, ru', b', j) == v;
      }
    }
  }

  lemma ReportCounts(st: States, ru: Runners, b: Bags, h: History, i: nat, g: nat, posted: bool)
    requires CountsOk(st, ru, b, h) && (i, g) in ru && ru[(i, g)].Launched?
    ensures CountsOk(st, ru[(i, g) := Serving], BagsReported(b, i, g, posted),
                     if posted then h.(readyPosted := h.readyPosted + {(i, g)}) else h)
  {
    assert (i, g) !in h.readyPosted && (i, g) !in h.resultPosted;
  }

  lemma ReportFlow(st: States, ru: Runners, b: Bags, seen: set<(nat, nat)>, c: bool, i: nat, g: nat, posted: bool)
    requires EventsOk(st, b) && RunnersOk(st, ru) && SeenOk(st, ru, b, seen, c)
    requires (i, g) in ru && ru[(i, g)].Launched? && i < |st| && g == st[i].generation
    ensures EventsOk(st, BagsReported(b, i, g, posted)) && RunnersOk(st, ru[(i, g) := Serving])
    ensures SeenOk(st, ru[(i, g) := Serving], BagsReported(b, i, g, posted), seen, c)
  {
  }

  lemma ReportKeeps(st: States, ru: Runners, b: Bags, h: History, c: bool, budget: nat, i: nat, g: nat, posted: bool)
    requires CrewOk(st, ru, b, h, c, budget) && (i, g) in ru && ru[(i, g)].Launched? && (posted || c)
    ensures CrewOk(st, ru[(i, g) := Serving], BagsReported(b, i, g, posted),
                   if posted then h.(readyPosted := h.readyPosted + {(i, g)}) else h, c, budget)
  {
    ReportIndices(st, ru, b, c, budget, i, g, posted);
    ReportCounts(st, ru, b, h, i, g, posted);
    CurrentRunner(st, ru, b, c, budget, i, g);
    ReportFlow(st, ru, b, h.resultSeen, c, i, g, posted);
  }

  lemma EndIndices(st: States, ru: Runners, b: Bags, c: bool, budget: nat, i: nat, g: nat, failed: bool, posted: bool)
    requires IndicesOk(st, ru, b, c, budget) && RunnersOk(st, ru)
    requires (i, g) in ru && !ru[(i, g)].Gone? && (posted || c)
    ensures IndicesOk(st, ru[(i, g) := Gone], BagsEnded(b, i, g, failed, posted), c, budget)
  {
    var ru', b' := ru[(i, g) := Gone], BagsEnded(b, i, g, failed, posted);
    CurrentRunner(st, ru, b, c, budget, i, g);
    forall j | 0 <= j < |st| ensures IndexOk(st, ru', b', j, c, budget) {
      assert IndexOk(st, ru, b, j, c, budget);
      var v := ViewOf(st, ru, b, j);
      if j == i {
        assert ViewOf(st, ru', b', j) == v.(pc := Gone, ended := v.ended + Bit(posted));
      } else {
        assert ViewOf(st, ru', b', j) == v;
      }
    }
  }

  lemma EndCounts(st: States, ru: Runners, b: Bags, h: History, i: nat, g: nat, failed: bool, posted: bool)
    requires CountsOk(st, ru, b, h) && (i, g) in ru && !ru[(i, g)].Gone?
    ensures CountsOk(st, ru[(i, g) := Gone], BagsEnded(b, i, g, failed, posted),
                     if posted then h.(resultPosted := h.resultPosted + {(i, g)}) else h)
  {
    assert (i, g) !in h.resultPosted;
  }

  lemma EndFlow(st: States, ru: Runners, b: Bags, seen: set<(nat, nat)>, c: bool, i: nat, g: nat, failed: bool, posted: bool)
    requires EventsOk(st, b) && RunnersOk(st, ru) && SeenOk(st, ru, b, seen, c)
    requires (i, g) in ru && !ru[(i, g)].Gone? && i < |st| && g == st[i].generation
    ensures EventsOk(st, BagsEnded(b, i, g, failed, posted)) && RunnersOk(st, ru[(i, g) := Gone])
    ensures SeenOk(st, ru[(i, g) := Gone], BagsEnded(b, i, g, failed, posted), seen, c)
  {
    assert (i, g) !in seen;
  }

  lemma EndKeeps(st: States, ru: Runners, b: Bags, h: History, c: bool, budget: nat,
                 i: nat, g: nat, failed: bool, posted: bool)
    requires CrewOk(st, ru, b, h, c, budget) && (i, g) in ru && !ru[(i, g)].Gone? && (posted || c)
    ensures CrewOk(st, ru[(i, g) := Gone], BagsEnded(b, i, g, failed, posted),
                   if posted then h.(resultPosted := h.resultPosted + {(i, g)}) else h, c, budget)
  {
    EndIndices(st, ru, b, c, budget, i, g, failed, posted);
    EndCounts(st, ru, b, h, i, g, failed, posted);
    CurrentRunner(st, ru, b, c, budget, i, g);
    EndFlow(st, ru, b, h.resultSeen, c, i, g, failed, posted);
  }

  lemma FireIndices(st: States, ru: Runners, b: Bags, c: bool, budget: nat, i: nat, posted: bool)
    requires IndicesOk(st, ru, b, c, budget) && i in b.timers && (posted || c)
    ensures IndicesOk(st, ru, BagsFired(b, i, posted), c, budget)
  {
    var b' := BagsFired(b, i, posted);
    forall j | 0 <= j < |st| ensures IndexOk(st, ru, b', j, c, budget) {
      assert IndexOk(st, ru, b, j, c, budget);
      var v := ViewOf(st, ru, b, j);
      if j == i {
        assert ViewOf(st, ru, b', j) == v.(pending := if posted then v.pending else v.pending - 1);
      } else {
        assert ViewOf(st, ru, b', j) == v;
      }
    }
  }

  lemma FireKeeps(st: States, ru: Runners, b: Bags, h: History, c: bool, budget: nat, i: nat, posted: bool)
    requires CrewOk(st, ru, b, h, c, budget) && i in b.timers && (posted || c)
    ensures CrewOk(st, ru, BagsFired(b, i, posted), h, c, budget)
  {
    FireIndices(st, ru, b, c, budget, i, posted);
  }

  // ----- what the loop takes

  lemma TakenReadyIndices(st: States, ru: Runners, b: Bags, c: bool, budget: nat, e: ReadyEvent)
    requires IndicesOk(st, ru, b, c, budget) && EventsOk(st, b) && e in b.ready
    ensures !st[e.index].ready
    ensures IndicesOk(st[e.index := st[e.index].(ready := true)], ru, b.(ready := b.ready - multiset{e}), c, budget)
  {
    var i := e.index;
    var st', b' := st[i := st[i].(ready := true)], b.(ready := b.ready - multiset{e});
    forall j | 0 <= j < |st| ensures IndexOk(st', ru, b', j, c, budget) {
      assert IndexOk(st, ru, b, j, c, budget);
      var v := ViewOf(st, ru, b, j);
      if j == i {
        assert ViewOf(st', ru, b', j) == v.(worker := st'[i], reported := v.reported - 1);
      } else {
        assert ViewOf(st', ru, b', j) == v;
      }
    }
    assert IndexOk(st, ru, b, i, c, budget);
  }

  lemma TakenReadyKeeps(st: States, ru: Runners, b: Bags, h: History, c: bool, budget: nat, e: ReadyEvent)
    requires CrewOk(st, ru, b, h, c, budget) && e in b.ready
    ensures CrewOk(st[e.index := st[e.index].(ready := true)], ru, b.(ready := b.ready - multiset{e}),
                   h.(readyTaken := h.readyTaken + 1), c, budget)
    ensures !st[e.index].ready
  {
    TakenReadyIndices(st, ru, b, c, budget, e);
  }

  function AfterResult(w: WorkerState, again: bool): WorkerState {
    WorkerState(w.generation, w.restarts + Bit(again), false)
  }

  lemma TakenResultIndices(st: States, ru: Runners, b: Bags, c: bool, budget: nat, e: ResultEvent, again: bool)
    requires IndicesOk(st, ru, b, c, budget) && EventsOk(st, b) && e in b.results
    requires again ==> !c && st[e.index].ready && st[e.index].restarts < budget
    ensures IndicesOk(st[e.index := AfterResult(st[e.index], again)], ru, BagsAfterResult(b, e, again), c || !again, budget)
  {
    var i := e.index;
    var st', b', c' := st[i := AfterResult(st[i], again)], BagsAfterResult(b, e, again), c || !again;
    forall j | 0 <= j < |st| ensures IndexOk(st', ru, b', j, c', budget) {
      assert IndexOk(st, ru, b, j, c, budget);
      var v := ViewOf(st, ru, b, j);
      if j == i {
        assert ViewOf(st', ru, b', j) == v.(worker := st'[i], ended := 0, pending := v.pending + Bit(again));
      } else {
        assert ViewOf(st', ru, b', j) == v;
      }
    }
  }

  lemma TakenResultCounts(st: States, ru: Runners, b: Bags, h: History, e: ResultEvent, again: bool)
    requires CountsOk(st, ru, b, h) && e.index < |st| && e in b.results
    ensures CountsOk(st[e.index := AfterResult(st[e.index], again)], ru, BagsAfterResult(b, e, again),
                     HistoryAfterResult(h, e, if again then {(e.index, st[e.index].restarts + 1)} else {}))
  {
    var k := (e.index, st[e.index].restarts + 1);
    assert k.0 == e.index && k.1 > st[k.0].restarts;
    assert k !in h.scheduled;
  }

  lemma TakenResultSeen(st: States, ru: Runners, b: Bags, seen: set<(nat, nat)>, c: bool, budget: nat,
                        e: ResultEvent, again: bool)
    requires SeenOk(st, ru, b, seen, c) && IndicesOk(st, ru, b, c, budget) && EventsOk(st, b) && e in b.results
    ensures SeenOk(st[e.index := AfterResult(st[e.index], again)], ru, BagsAfterResult(b, e, again),
                   seen + {(e.index, e.generation)}, c || !again)
  {
    assert IndexOk(st, ru, b, e.index, c, budget);
    var v := ViewOf(st, ru, b, e.index);
    assert v.ended == 1 && v.pc.Gone? && v.pending == 0;
    assert !c ==> (e.index, e.generation) !in seen;
  }

  lemma TakenResultEvents(st: States, ru: Runners, b: Bags, e: ResultEvent, again: bool)
    requires EventsOk(st, b) && RunnersOk(st, ru) && e in b.results
    ensures EventsOk(st[e.index := AfterResult(st[e.index], again)], BagsAfterResult(b, e, again))
    ensures RunnersOk(st[e.index := AfterResult(st[e.index], again)], ru)
  {
  }

  lemma TakenResultKeeps(st: States, ru: Runners, b: Bags, h: History, c: bool, budget: nat, e: ResultEvent, again: bool)
    requires CrewOk(st, ru, b, h, c, budget) && e in b.results
    requires again ==> !c && st[e.index].ready && st[e.index].restarts < budget
    ensures CrewOk(st[e.index := AfterResult(st[e.index], again)], ru, BagsAfterResult(b, e, again),
                   HistoryAfterResult(h, e, if again then {(e.index, st[e.index].restarts + 1)} else {}), c || !again, budget)
  {
    TakenResultIndices(st, ru, b, c, budget, e, again);
    TakenResultCounts(st, ru, b, h, e, again);
    TakenResultEvents(st, ru, b, e, again);
    TakenResultSeen(st, ru, b, h.resultSeen, c, budget, e, again);
  }

  function Promoted(st: States, i: nat): States
    requires i < |st|
  {
    st[i := st[i].(generation := st[i].generation + 1)]
  }

  lemma TakenRestartIndices(st: States, ru: Runners, b: Bags, c: bool, budget: nat, i: nat)
    requires IndicesOk(st, ru, b, c, budget) && EventsOk(st, b) && RunnersOk(st, ru) && i in b.restarts && !c
    ensures IndicesOk(Promoted(st, i), ru[(i, st[i].generation + 1) := Launched],
                      b.(restarts := b.restarts - multiset{i}), c, budget)
    ensures !st[i].ready
  {
    var g := st[i].generation + 1;
    var st', ru', b' := Promoted(st, i), ru[(i, g) := Launched], b.(restarts := b.restarts - multiset{i});
    assert ReadyEvent(i, g) !in b.ready && ResultEvent(i, g, true) !in b.results && ResultEvent(i, g, false) !in b.results;
    forall j | 0 <= j < |st| ensures IndexOk(st', ru', b', j, c, budget) {
      assert IndexOk(st, ru, b, j, c, budget);
      var v := ViewOf(st, ru, b, j);
      if j == i {
        assert ViewOf(st', ru', b', j) == View(st'[i], Launched, 0, 0, v.pending - 1);
      } else {
        assert ViewOf(st', ru', b', j) == v;
      }
    }
    assert IndexOk(st, ru, b, i, c, budget);
  }

  lemma TakenRestartCounts(st: States, ru: Runners, b: Bags, h: History, i: nat)
    requires CountsOk(st, ru, b, h) && RunnersOk(st, ru) && i in b.restarts && i < |st|
    ensures CountsOk(Promoted(st, i), ru[(i, st[i].generation + 1) := Launched], b.(restarts := b.restarts - multiset{i}),
                     h.(restartTaken := h.restartTaken + 1))
  {
    assert (i, st[i].generation + 1).1 == st[i].generation + 1 && (i, st[i].generation + 1) !in ru;
  }

  lemma TakenRestartSeen(st: States, ru: Runners, b: Bags, seen: set<(nat, nat)>, c: bool, i: nat)
    requires SeenOk(st, ru, b, seen, c) && RunnersOk(st, ru) && i in b.restarts && i < |st|
    ensures SeenOk(Promoted(st, i), ru[(i, st[i].generation + 1) := Launched], b.(restarts := b.restarts - multiset{i}), seen, c)
  {
    assert (i, st[i].generation + 1).1 == st[i].generation + 1 && (i, st[i].generation + 1) !in ru;
  }

  lemma TakenRestartKeeps(st: States, ru: Runners, b: Bags, h: History, c: bool, budget: nat, i: nat)
    requires CrewOk(st, ru, b, h, c, budget) && i in b.restarts && !c
    ensures CrewOk(Promoted(st, i), ru[(i, st[i].generation + 1) := Launched], b.(restarts := b.restarts - multiset{i}),
                   h.(restartTaken := h.restartTaken + 1), c, budget)
    ensures !st[i].ready
  {
    TakenRestartIndices(st, ru, b, c, budget, i);
    TakenRestartCounts(st, ru, b, h, i);
    TakenRestartSeen(st, ru, b, h.resultSeen, c, i);
    assert IndexOk(st, ru, b, i, c, budget);
    var v := ViewOf(st, ru, b, i);
    assert v.pending == 1 && v.pc.Gone?;
    RestartEvents(st, ru, b, c, budget, i);
  }

  /** When its restart is taken, nothing else is under way for a worker. */
  lemma RestartEvents(st: States, ru: Runners, b: Bags, c: bool, budget: nat, i: nat)
    requires IndicesOk(st, ru, b, c, budget) && EventsOk(st, b) && RunnersOk(st, ru) && i in b.restarts
    ensures EventsOk(Promoted(st, i), b.(restarts := b.restarts - multiset{i}))
    ensures RunnersOk(Promoted(st, i), ru[(i, st[i].generation + 1) := Launched])
  {
    assert IndexOk(st, ru, b, i, c, budget);
    var v := ViewOf(st, ru, b, i);
    assert v.pending == 1 && v.pc.Gone? && v.reported == 0 && v.ended == 0;
  }

  lemma IgnoredRestartIndices(st: States, ru: Runners, b: Bags, budget: nat, i: nat)
    requires IndicesOk(st, ru, b, true, budget) && i in b.restarts
    ensures IndicesOk(st, ru, b.(restarts := b.restarts - multiset{i}), true, budget)
  {
    var b' := b.(restarts := b.restarts - multiset{i});
    forall j | 0 <= j < |st| ensures IndexOk(st, ru, b', j, true, budget) {
      assert IndexOk(st, ru, b, j, true, budget);
      var v := ViewOf(st, ru, b, j);
      assert ViewOf(st, ru, b', j) == v.(pending := if i == j then v.pending - 1 else v.pending);
    }
  }

  lemma IgnoredRestartKeeps(st: States, ru: Runners, b: Bags, h: History, budget: nat, i: nat)
    requires CrewOk(st, ru, b, h, true, budget) && i in b.restarts
    ensures CrewOk(st, ru, b.(restarts := b.restarts - multiset{i}), h.(restartTaken := h.restartTaken + 1), true, budget)
  {
    IgnoredRestartIndices(st, ru, b, budget, i);
  }

  // ----- whole steps

  lemma ReadyTouches(l: Loop, e: ReadyEvent)
    requires e.index < |l.states| && l.states[e.index].generation == e.generation && !l.states[e.index].ready
    ensures var l' := OnReady(l, e);
            && l'.states == l.states[e.index := l.states[e.index].(ready := true)]
            && l'.running == l.running && l'.sessionErr == l.sessionErr
  {
  }

  lemma ResultTouches(l: Loop, e: ResultEvent, cancelled: bool, budget: nat)
    requires e.index < |l.states| && l.states[e.index].generation == e.generation
    ensures var l' := OnResult(l, e, cancelled, budget);
            var again := Restarts(l, e, cancelled, budget);
            && l'.states == l.states[e.index := AfterResult(l.states[e.index], again)]
            && (l'.running <==> l.running && (cancelled || again))
            && (cancelled || again ==> l'.sessionErr == l.sessionErr)
            && (!cancelled && !again ==> l'.sessionErr.Some?)
  {
    if !l.states[e.index].ready {
      assert l.states == l.states[e.index := l.states[e.index].(ready := false)];
    }
  }

  /** Cancellation asks less of the crew, and the note about it is only history. */
  lemma MoreCancelled(st: States, ru: Runners, b: Bags, h: History, h': History, c: bool, c': bool, budget: nat)
    requires CrewOk(st, ru, b, h, c, budget) && (c ==> c') && h' == h.(cancelledFirst := h'.cancelledFirst)
    ensures CrewOk(st, ru, b, h', c', budget)
  {
    forall j | 0 <= j < |st| ensures IndexOk(st, ru, b, j, c', budget) {
      assert IndexOk(st, ru, b, j, c, budget);
    }
  }

  /** The invariant from its three parts. */
  lemma Assembled(s: Run, st: States, ru: Runners, b: Bags, h: History, c: bool)
    requires LoopOk(s.loop) && EndingOk(s) && CrewOk(st, ru, b, h, c, s.budget)
    requires s.loop.states == st && s.runners == ru && s.bags == b && s.history == h && IsCancelled(s) == c
    ensures Inv(s)
  {
  }

  lemma GoroutineKeeps(s: Run, a: Action)
    requires Inv(s) && Step(s, a).Some? && (a.RunnerReports? || a.RunnerEnds? || a.TimerFires?)
    ensures Inv(Step(s, a).value) && Step(s, a).value.loop == s.loop
  {
    var (st, ru, b, h, c) := (s.loop.states, s.runners, s.bags, s.history, IsCancelled(s));
    if a.RunnerReports? {
      ReportKeeps(st, ru, b, h, c, s.budget, a.index, a.generation, a.posted);
    } else if a.RunnerEnds? {
      EndKeeps(st, ru, b, h, c, s.budget, a.index, a.generation, a.failed, a.posted);
    } else {
      FireKeeps(st, ru, b, h, c, s.budget, a.index, a.posted);
    }
  }

  lemma TakeReadyKeeps(s: Run, e: ReadyEvent)
    requires Inv(s) && Step(s, TakeReady(e)).Some?
    ensures Inv(OnTakenReady(s, e))
  {
    TakenReadyKeeps(s.loop.states, s.runners, s.bags, s.history, IsCancelled(s), s.budget, e);
    ReadyTouches(s.loop, e);
    ReadyKeepsLoopOk(s.loop, e);
  }

  lemma TakeResultEnding(s: Run, e: ResultEvent)
    requires EndingOk(s) && s.loop.running && e.index < Connections(s) && e.generation == s.loop.states[e.index].generation
    ensures EndingOk(OnTakenResult(s, e))
    ensures IsCancelled(OnTakenResult(s, e)) == (IsCancelled(s) || !Restarts(s.loop, e, IsCancelled(s), s.budget))
  {
    ResultTouches(s.loop, e, IsCancelled(s), s.budget);
  }

  lemma ResultShape(s: Run, e: ResultEvent)
    requires e.index < Connections(s) && e.generation == s.loop.states[e.index].generation
    ensures var s' := OnTakenResult(s, e); var again := Restarts(s.loop, e, IsCancelled(s), s.budget);
            && s'.loop.states == s.loop.states[e.index := AfterResult(s.loop.states[e.index], again)]
            && s'.runners == s.runners && s'.bags == BagsAfterResult(s.bags, e, again) && s'.budget == s.budget
            && s'.history == HistoryAfterResult(s.history, e, if again then {(e.index, s.loop.states[e.index].restarts + 1)} else {})
  {
    ResultTouches(s.loop, e, IsCancelled(s), s.budget);
  }

  lemma TakeResultKeeps(s: Run, e: ResultEvent)
    requires Inv(s) && Step(s, TakeResult(e)).Some?
    ensures Inv(OnTakenResult(s, e))
  {
    TakenResultKeeps(s.loop.states, s.runners, s.bags, s.history, IsCancelled(s), s.budget, e,
                     Restarts(s.loop, e, IsCancelled(s), s.budget));
    ResultShape(s, e);
    TakeResultEnding(s, e);
    ResultKeepsLoopOk(s.loop, e, IsCancelled(s), s.budget);
  }

  /** The state after a restart that was not cancelled. */
  function Relaunched(s: Run, i: nat): Run
    requires i < Connections(s)
  {
    s.(loop := s.loop.(states := Promoted(s.loop.states, i)),
       bags := s.bags.(restarts := s.bags.restarts - multiset{i}),
       history := s.history.(restartTaken := s.history.restartTaken + 1),
       runners := s.runners[(i, s.loop.states[i].generation + 1) := Launched])
  }

  lemma RestartShape(s: Run, i: nat)
    requires !IsCancelled(s) && i < Connections(s)
    ensures OnTakenRestart(s, i) == Relaunched(s, i)
  {
  }

  lemma RestartRest(s: Run, i: nat)
    requires LoopOk(s.loop) && EndingOk(s) && !IsCancelled(s) && i < Connections(s) && !s.loop.states[i].ready
    ensures LoopOk(Relaunched(s, i).loop) && EndingOk(Relaunched(s, i)) && !IsCancelled(Relaunched(s, i))
  {
    SetStateKeepsLoopOk(s.loop, i, s.loop.states[i].(generation := s.loop.states[i].generation + 1));
  }

  lemma RelaunchedCrew(s: Run, i: nat, st: States, ru: Runners, b: Bags, h: History)
    requires CrewOk(s.loop.states, s.runners, s.bags, s.history, false, s.budget) && i in s.bags.restarts && i < Connections(s)
    requires st == Promoted(s.loop.states, i) && ru == s.runners[(i, s.loop.states[i].generation + 1) := Launched]
    requires b == s.bags.(restarts := s.bags.restarts - multiset{i}) && h == s.history.(restartTaken := s.history.restartTaken + 1)
    ensures CrewOk(st, ru, b, h, false, s.budget) && !s.loop.states[i].ready
  {
    TakenRestartKeeps(s.loop.states, s.runners, s.bags, s.history, false, s.budget, i);
  }

  lemma TakeRestartKeeps(s: Run, i: nat, s': Run)
    requires LoopOk(s.loop) && EndingOk(s) && CrewOk(s.loop.states, s.runners, s.bags, s.history, false, s.budget)
    requires i in s.bags.restarts && !IsCancelled(s) && i < Connections(s) && s' == Relaunched(s, i)
    ensures Inv(s')
  {
    RelaunchedCrew(s, i, s'.loop.states, s'.runners, s'.bags, s'.history);
    RestartRest(s, i);
    Assembled(s', s'.loop.states, s'.runners, s'.bags, s'.history, false);
  }

  lemma IgnoreRestartKeeps(s: Run, i: nat)
    requires Inv(s) && Step(s, TakeRestart(i)).Some? && IsCancelled(s)
    ensures Inv(OnTakenRestart(s, i))
  {
    IgnoredRestartKeeps(s.loop.states, s.runners, s.bags, s.history, s.budget, i);
  }

  predicate Ends(a: Action) { a.IngressEnds? || a.ParentCancels? || a.TakeIngress? || a.TakeCancel? }

  lemma EndingStays(s: Run, a: Action)
    requires LoopOk(s.loop) && EndingOk(s) && Step(s, a).Some? && Ends(a)
    ensures var s' := Step(s, a).value;
            && LoopOk(s'.loop) && EndingOk(s')
            && s'.loop.states == s.loop.states && s'.runners == s.runners && s'.bags == s.bags
            && s'.history == s.history.(cancelledFirst := s'.history.cancelledFirst) && s'.budget == s.budget
            && (IsCancelled(s) ==> IsCancelled(s'))
  {
  }

  lemma EndingKeeps(s: Run, a: Action)
    requires Inv(s) && Step(s, a).Some? && Ends(a)
    ensures Inv(Step(s, a).value)
  {
    var s' := Step(s, a).value;
    EndingStays(s, a);
    MoreCancelled(s.loop.states, s.runners, s.bags, s.history, s'.history, IsCancelled(s), IsCancelled(s'), s.budget);
    Assembled(s', s.loop.states, s.runners, s.bags, s'.history, IsCancelled(s'));
  }

  lemma RestartIsKnown(s: Run, i: nat)
    requires Inv(s) && i in s.bags.restarts
    ensures i < Connections(s)
  {
  }

  lemma TakenRestartStep(s: Run, i: nat)
    requires Inv(s) && Step(s, TakeRestart(i)).Some?
    ensures Inv(OnTakenRestart(s, i))
  {
    if IsCancelled(s) {
      IgnoreRestartKeeps(s, i);
    } else {
      RestartIsKnown(s, i);
      RestartShape(s, i);
      TakeRestartKeeps(s, i, OnTakenRestart(s, i));
    }
  }

  /** Which function a taken event amounts to. */
  lemma TakenIs(s: Run, a: Action)
    requires Step(s, a).Some?
    ensures a.TakeReady? ==> Step(s, a).value == OnTakenReady(s, a.ready) && Step(s, TakeReady(a.ready)).Some?
    ensures a.TakeResult? ==> Step(s, a).value == OnTakenResult(s, a.result) && Step(s, TakeResult(a.result)).Some?
    ensures a.TakeRestart? ==> Step(s, a).value == OnTakenRestart(s, a.index) && Step(s, TakeRestart(a.index)).Some?
  {
  }

  lemma TakeKeeps(s: Run, a: Action)
    requires Inv(s) && Step(s, a).Some? && (a.TakeReady? || a.TakeResult? || a.TakeRestart?)
    ensures Inv(Step(s, a).value)
  {
    TakenIs(s, a);
    if a.TakeReady? {
      TakeReadyKeeps(s, a.ready);
    } else if a.TakeResult? {
      TakeResultKeeps(s, a.result);
    } else {
      TakenRestartStep(s, a.index);
    }
  }

  lemma StepKeeps(s: Run, a: Action)
    requires Inv(s) && Step(s, a).Some?
    ensures Inv(Step(s, a).value)
  {
    if a.RunnerReports? || a.RunnerEnds? || a.TimerFires? {
      GoroutineKeeps(s, a);
    } else if a.TakeReady? || a.TakeResult? || a.TakeRestart? {
      TakeKeeps(s, a);
    } else {
      EndingKeeps(s, a);
    }
  }

  lemma StepShape(s: Run, a: Action)
    requires Step(s, a).Some?
    ensures Connections(Step(s, a).value) == Connections(s) && Step(s, a).value.budget == s.budget
  {
  }

  lemma StartOk(connections: nat, budget: nat)
    ensures Inv(Start(connections, budget))
  {
    NoneReady(connections);
    var s := Start(connections, budget);
    forall i | 0 <= i < connections ensures IndexOk(s.loop.states, s.runners, s.bags, i, false, budget) {
      assert (i, 1) in s.runners;
    }
  }

  lemma {:induction false} RunKeeps(s: Run, actions: seq<Action>)
    requires Inv(s) && Execute(s, actions).Some?
    ensures var s' := Execute(s, actions).value; Inv(s') && Connections(s') == Connections(s) && s'.budget == s.budget
    decreases |actions|
  {
    if actions != [] {
      StepKeeps(s, actions[0]);
      StepShape(s, actions[0]);
      RunKeeps(Step(s, actions[0]).value, actions[1..]);
    }
  }

  lemma Reachable(connections: nat, budget: nat, actions: seq<Action>)
    requires Execute(Start(connections, budget), actions).Some?
    ensures var s := Execute(Start(connections, budget), actions).value;
            Inv(s) && Connections(s) == connections && s.budget == budget
  {
    StartOk(connections, budget);
    RunKeeps(Start(connections, budget), actions);
  }

  // ----- what holds in every reachable state

  /** Whatever order the events come in: the ready count and the ingress agree with the worker states, a
      worker's generation is its restart count plus one, or equal to it while a restart is pending, and at most one
      runner of an index has not ended. */
  lemma WorkersAreAccountedFor(connections: nat, budget: nat, actions: seq<Action>)
    requires Execute(Start(connections, budget), actions).Some?
    ensures var s := Execute(Start(connections, budget), actions).value;
            && |s.loop.states| == connections
            && s.loop.readyWorkers == CountReady(s.loop.states)
            && (forall i :: i in s.loop.ingress <==> 0 <= i < connections && s.loop.states[i].ready)
            && (forall i :: 0 <= i < connections && i in s.loop.ingress ==> s.loop.ingress[i] == s.loop.states[i].generation)
            && (forall i :: 0 <= i < connections && !IsCancelled(s) ==>
                  s.bags.timers[i] + s.bags.restarts[i] <= 1 && s.loop.states[i].restarts <= budget &&
                  s.loop.states[i].generation == s.loop.states[i].restarts + 1 - s.bags.timers[i] - s.bags.restarts[i])
            && (forall j, k :: j in s.runners && k in s.runners && j.0 == k.0 ==>
                  s.runners[j].Gone? || s.runners[k].Gone? || j == k)
  {
    var s := Execute(Start(connections, budget), actions).value;
    Reachable(connections, budget, actions);
    forall i | 0 <= i < connections && !IsCancelled(s)
      ensures s.bags.timers[i] + s.bags.restarts[i] <= 1 && s.loop.states[i].restarts <= budget
      ensures s.loop.states[i].generation == s.loop.states[i].restarts + 1 - s.bags.timers[i] - s.bags.restarts[i]
    {
      assert IndexOk(s.loop.states, s.runners, s.bags, i, IsCancelled(s), s.budget);
    }
  }

  /** Before cancellation, a worker whose result was consumed is not ready for that generation, and the event that
      could make it ready is not waiting either. */
  lemma ConsumedResultIsFinal(connections: nat, budget: nat, actions: seq<Action>, i: nat, g: nat)
    requires Execute(Start(connections, budget), actions).Some?
    requires var s := Execute(Start(connections, budget), actions).value; (i, g) in s.history.resultSeen && !IsCancelled(s)
    ensures var s := Execute(Start(connections, budget), actions).value;
            && i < |s.loop.states| && ReadyEvent(i, g) !in s.bags.ready
            && (s.loop.states[i].ready ==> s.loop.states[i].generation > g)
  {
    var s := Execute(Start(connections, budget), actions).value;
    Reachable(connections, budget, actions);
    assert (i, g).0 == i;
    assert IndexOk(s.loop.states, s.runners, s.bags, i, false, s.budget);
  }

  lemma {:induction false} OnePerIndex<T>(m: multiset<T>, index: T -> nat, n: nat)
    requires forall e :: e in m ==> index(e) < n && m[e] == 1
    requires forall e, f :: e in m && f in m && index(e) == index(f) ==> e == f
    ensures |m| <= n
  {
    if n == 0 {
      assert m == multiset{};
    } else if e :| e in m && index(e) == n - 1 {
      OnePerIndex(m - multiset{e}, index, n - 1);
    } else {
      OnePerIndex(m, index, n - 1);
    }
  }

  lemma ReadyBound(st: States, ru: Runners, b: Bags, c: bool, budget: nat)
    requires IndicesOk(st, ru, b, c, budget) && EventsOk(st, b)
    ensures |b.ready| <= |st|
  {
    forall e | e in b.ready ensures b.ready[e] == 1 {
      assert IndexOk(st, ru, b, e.index, c, budget);
    }
    OnePerIndex(b.ready, (e: ReadyEvent) => e.index, |st|);
  }

  lemma ResultBound(st: States, ru: Runners, b: Bags, c: bool, budget: nat)
    requires IndicesOk(st, ru, b, c, budget) && EventsOk(st, b)
    ensures |b.results| <= |st|
  {
    forall e | e in b.results
      ensures b.results[e] == 1 && b.results[e.(failed := !e.failed)] == 0
    {
      assert IndexOk(st, ru, b, e.index, c, budget);
      assert ResultEvent(e.index, e.generation, e.failed) == e;
    }
    forall e, f | e in b.results && f in b.results && e.index == f.index ensures e == f {
      assert f == e || f == e.(failed := !e.failed);
    }
    OnePerIndex(b.results, (e: ResultEvent) => e.index, |st|);
  }

  lemma RestartBound(st: States, ru: Runners, b: Bags, c: bool, budget: nat)
    requires IndicesOk(st, ru, b, c, budget) && EventsOk(st, b)
    ensures |b.restarts| <= |st|
  {
    forall i | i in b.restarts ensures b.restarts[i] == 1 {
      assert IndexOk(st, ru, b, i, c, budget);
    }
    OnePerIndex(b.restarts, (i: nat) => i, |st|);
  }

  lemma BagBounds(s: Run)
    requires Inv(s)
    ensures |s.bags.ready| <= Connections(s) && |s.bags.results| <= Connections(s) && |s.bags.restarts| <= Connections(s)
  {
    ReadyBound(s.loop.states, s.runners, s.bags, IsCancelled(s), s.budget);
    ResultBound(s.loop.states, s.runners, s.bags, IsCancelled(s), s.budget);
    RestartBound(s.loop.states, s.runners, s.bags, IsCancelled(s), s.budget);
  }

  lemma RoomToSend(s: Run)
    requires |s.bags.ready| <= Connections(s) && |s.bags.results| <= Connections(s) && |s.bags.restarts| <= Connections(s)
    requires Connections(s) > 0
    ensures forall k :: k in s.runners && s.runners[k].Launched? ==> Report(s, k.0, k.1, true).Some?
    ensures forall k, failed :: k in s.runners && !s.runners[k].Gone? ==> End(s, k.0, k.1, failed, true).Some?
    ensures forall i :: i in s.bags.timers ==> Fire(s, i, true).Some?
  {
    assert forall k :: k in s.runners ==> k == (k.0, k.1);
  }

  /** Each channel holds at most one event per worker, half of what its buffer takes, so no goroutine ever waits
      for the loop. */
  lemma ChannelsNeverFill(connections: nat, budget: nat, actions: seq<Action>)
    requires Execute(Start(connections, budget), actions).Some? && connections > 0
    ensures var s := Execute(Start(connections, budget), actions).value;
            && |s.bags.ready| <= connections && |s.bags.results| <= connections && |s.bags.restarts| <= connections
            && (forall k :: k in s.runners && s.runners[k].Launched? ==> Report(s, k.0, k.1, true).Some?)
            && (forall k, failed :: k in s.runners && !s.runners[k].Gone? ==> End(s, k.0, k.1, failed, true).Some?)
            && (forall i :: i in s.bags.timers ==> Fire(s, i, true).Some?)
  {
    Reachable(connections, budget, actions);
    BagBounds(Execute(Start(connections, budget), actions).value);
    RoomToSend(Execute(Start(connections, budget), actions).value);
  }

  // ----- how much a session can do

  lemma {:induction false} PairsBound(pairs: set<(nat, nat)>, n: nat, m: nat)
    requires forall k :: k in pairs ==> k.0 < n && 1 <= k.1 <= m
    ensures |pairs| <= n * m
  {
    if n == 0 {
      assert pairs == {};
    } else {
      var last := set k | k in pairs && k.0 == n - 1;
      PairsBound(pairs - last, n - 1, m);
      ColumnBound(last, n - 1, m);
      assert pairs == (pairs - last) + last;
      assert (n - 1) * m + m == n * m;
    }
  }

  lemma {:induction false} ColumnBound(pairs: set<(nat, nat)>, i: nat, m: nat)
    requires forall k :: k in pairs ==> k.0 == i && 1 <= k.1 <= m
    ensures |pairs| <= m
  {
    if m == 0 {
      assert pairs == {};
    } else {
      ColumnBound(pairs - {(i, m)}, i, m - 1);
    }
  }

  /** How many events a list of actions has the loop take. */
  function Taken(actions: seq<Action>): nat {
    if actions == [] then 0 else Bit(IsTake(actions[0])) + Taken(actions[1..])
  }

  function Counted(h: History): nat { h.readyTaken + h.resultTaken + h.restartTaken }

  predicate IsTake(a: Action) { a.TakeReady? || a.TakeResult? || a.TakeRestart? || a.TakeIngress? || a.TakeCancel? }

  lemma TakeIsCounted(s: Run, a: Action)
    requires Step(s, a).Some?
    ensures var s' := Step(s, a).value;
            Bit(IsTake(a)) + Counted(s.history) + Bit(s'.loop.running) <= Counted(s'.history) + Bit(s.loop.running)
  {
  }

  lemma {:induction false} TakenAreCounted(s: Run, actions: seq<Action>)
    requires Execute(s, actions).Some?
    ensures Taken(actions) + Counted(s.history) <= Counted(Execute(s, actions).value.history) + Bit(s.loop.running)
    decreases |actions|
  {
    if actions != [] {
      TakeIsCounted(s, actions[0]);
      TakenAreCounted(Step(s, actions[0]).value, actions[1..]);
    }
  }

  lemma HistoryBound(st: States, ru: Runners, b: Bags, h: History, c: bool, budget: nat)
    requires CrewOk(st, ru, b, h, c, budget)
    ensures |ru| <= |st| * (budget + 1)
    ensures h.readyTaken <= |ru| && h.resultTaken <= |ru| && h.restartTaken <= |st| * budget
  {
    forall i | 0 <= i < |st| ensures st[i].generation <= budget + 1 && st[i].restarts <= budget {
      assert IndexOk(st, ru, b, i, c, budget);
    }
    PairsBound(ru.Keys, |st|, budget + 1);
    PairsBound(h.scheduled, |st|, budget);
    SubsetSize(h.readyPosted, ru.Keys);
    SubsetSize(h.resultPosted, ru.Keys);
  }

  lemma {:induction false} SubsetSize<T>(a: set<T>, b: set<T>)
    requires a <= b
    ensures |a| <= |b|
  {
    if x :| x in a {
      SubsetSize(a - {x}, b - {x});
    }
  }

  /** A session of C connections with restart budget R launches at most C(1+R) runners, and its loop takes at most
      2C(1+R) + CR + 1 events, however its goroutines are scheduled. */
  lemma SessionsAreBounded(connections: nat, budget: nat, actions: seq<Action>)
    requires Execute(Start(connections, budget), actions).Some?
    ensures |Execute(Start(connections, budget), actions).value.runners| <= connections * (1 + budget)
    ensures Taken(actions) <= 2 * (connections * (1 + budget)) + connections * budget + 1
  {
    var s := Execute(Start(connections, budget), actions).value;
    Reachable(connections, budget, actions);
    HistoryBound(s.loop.states, s.runners, s.bags, s.history, IsCancelled(s), budget);
    TakenAreCounted(Start(connections, budget), actions);
  }

  /** Once the loop has ended, the call returns an error exactly if a session failure was recorded, which happens at
      most once, and never when the parent was cancelled first. A session start is recorded at most once. */
  lemma ErrorsAreRecordedFailures(connections: nat, budget: nat, actions: seq<Action>)
    requires Execute(Start(connections, budget), actions).Some?
    ensures var s := Execute(Start(connections, budget), actions).value;
            && s.loop.recordedFailures <= 1 && s.loop.recordedStarts <= 1
            && (!s.loop.running ==> (Returned(s).Some? <==> s.loop.recordedFailures == 1))
            && (s.history.cancelledFirst ==> Returned(s).None? && s.loop.recordedFailures == 0)
  {
    Reachable(connections, budget, actions);
  }

  lemma HandledStart(l: Loop, e: LoopEvent, cancelled: bool, budget: nat)
    requires LoopOk(l) && l.running
    ensures var l' := Handle(l, e, cancelled, budget);
            && l.recordedStarts <= l'.recordedStarts
            && (l'.recordedStarts > l.recordedStarts ==> AllReady(l'.states))
  {
    if e.Ready? {
      ReadyKeepsLoopOk(l, e.ready);
    } else if e.Result? {
      ResultKeepsLoopOk(l, e.result, cancelled, budget);
    }
  }

  /** The only event a step hands to the loop. */
  function EventOf(s: Run, a: Action): Option<LoopEvent> {
    match a
    case TakeReady(e) => Some(Ready(e))
    case TakeResult(e) => Some(Result(e))
    case TakeRestart(i) => Some(Restart(i))
    case TakeIngress => if s.ingressCh.Some? then Some(IngressEnded(s.ingressCh.value)) else None
    case TakeCancel => Some(Cancelled)
    case _ => None
  }

  lemma OnlyTakesTouchTheLoop(s: Run, a: Action)
    requires Step(s, a).Some?
    ensures Step(s, a).value.loop == if EventOf(s, a).Some? then Handled(s, EventOf(s, a).value) else s.loop
    ensures EventOf(s, a).Some? ==> s.loop.running
  {
  }

  /** A session start is recorded only by a step that leaves every worker ready. */
  lemma StartsWhenAllAreReady(connections: nat, budget: nat, actions: seq<Action>, a: Action)
    requires Execute(Start(connections, budget), actions).Some?
    requires Step(Execute(Start(connections, budget), actions).value, a).Some?
    ensures var s := Execute(Start(connections, budget), actions).value;
            var l := Step(s, a).value.loop;
            && s.loop.recordedStarts <= l.recordedStarts
            && (l.recordedStarts > s.loop.recordedStarts ==> AllReady(l.states))
  {
    Reachable(connections, budget, actions);
    var s := Execute(Start(connections, budget), actions).value;
    OnlyTakesTouchTheLoop(s, a);
    if EventOf(s, a).Some? {
      HandledStart(s.loop, EventOf(s, a).value, IsCancelled(s), s.budget);
    }
  }

  // ----- what each event leads to

  /** Some state of the run, the first one included, has all workers ready. */
  ghost predicate WereAllReady(s: Run, actions: seq<Action>)
    decreases |actions|
  {
    AllReady(s.loop.states) || (actions != [] && Step(s, actions[0]).Some? && WereAllReady(Step(s, actions[0]).value, actions[1..]))
  }

  lemma StepStarts(s: Run, a: Action)
    requires Inv(s) && Step(s, a).Some?
    ensures Step(s, a).value.loop.sessionReady <==> s.loop.sessionReady || AllReady(Step(s, a).value.loop.states)
  {
    var s' := Step(s, a).value;
    StepKeeps(s, a);
    OnlyTakesTouchTheLoop(s, a);
    if EventOf(s, a).Some? {
      HandledStart(s.loop, EventOf(s, a).value, IsCancelled(s), s.budget);
    }
  }

  lemma {:induction false} RunStarts(s: Run, actions: seq<Action>)
    requires Inv(s) && Execute(s, actions).Some?
    ensures Execute(s, actions).value.loop.sessionReady <==> s.loop.sessionReady || WereAllReady(s, actions)
    decreases |actions|
  {
    if actions != [] {
      StepKeeps(s, actions[0]);
      StepStarts(s, actions[0]);
      RunStarts(Step(s, actions[0]).value, actions[1..]);
    }
  }

  /** In every run: a session start is recorded, and then once, if and only if all workers, of which there are some,
      were ready together at some point. */
  lemma StartedExactly(connections: nat, budget: nat, actions: seq<Action>)
    requires Execute(Start(connections, budget), actions).Some?
    ensures Execute(Start(connections, budget), actions).value.loop.recordedStarts ==
            if WereAllReady(Start(connections, budget), actions) then 1 else 0
  {
    StartOk(connections, budget);
    Reachable(connections, budget, actions);
    RunStarts(Start(connections, budget), actions);
  }

  /** The failure that a worker's result stands for; None if the worker is to be restarted. */
  function FailureOf(w: WorkerState, e: ResultEvent, budget: nat): Option<Failure> {
    if !e.failed then Some(StoppedWithoutError(e.index))
    else if !w.ready then Some(StartupFailed(e.index))
    else if w.generation == budget + 1 then Some(BudgetExhausted(e.index)) else None
  }

  /** The result takes its worker out of service, and the session ends with the failure it stands for; without one, a
      timer for the worker's next generation is started and the session goes on. */
  predicate DecidedBy(s: Run, s': Run, e: ResultEvent) {
    && e.index < |s.loop.states| == |s'.loop.states| && e.generation == s.loop.states[e.index].generation
    && !s'.loop.states[e.index].ready
    && var failure := if s.parent then None else FailureOf(s.loop.states[e.index], e, s.budget);
       && s'.loop.sessionErr == failure && (s'.loop.running <==> failure.None?)
       && s'.bags.timers == (if s.parent || failure.Some? then s.bags.timers else s.bags.timers + multiset{e.index})
  }

  /** In every run a result that the loop takes is one of the current generation, and decides about the session. */
  lemma ResultsDecide(connections: nat, budget: nat, actions: seq<Action>, e: ResultEvent)
    requires Execute(Start(connections, budget), actions).Some?
    requires Step(Execute(Start(connections, budget), actions).value, TakeResult(e)).Some?
    ensures var s := Execute(Start(connections, budget), actions).value;
            var s' := Step(s, TakeResult(e)).value;
            s.budget == budget && DecidedBy(s, s', e) && e.index !in s'.loop.ingress
  {
    var s := Execute(Start(connections, budget), actions).value;
    TookResult(s, e);
    ReachableResult(connections, budget, actions, e);
  }

  lemma TookResult(s: Run, e: ResultEvent)
    requires Step(s, TakeResult(e)).Some?
    ensures s.loop.running && e in s.bags.results && Step(s, TakeResult(e)).value == OnTakenResult(s, e)
  {
  }

  lemma ReachableResult(connections: nat, budget: nat, actions: seq<Action>, e: ResultEvent)
    requires Execute(Start(connections, budget), actions).Some?
    requires var s := Execute(Start(connections, budget), actions).value; s.loop.running && e in s.bags.results
    ensures var s := Execute(Start(connections, budget), actions).value;
            s.budget == budget && DecidedBy(s, OnTakenResult(s, e), e) && e.index !in OnTakenResult(s, e).loop.ingress
  {
    Reachable(connections, budget, actions);
    ResultOutcome(Execute(Start(connections, budget), actions).value, e);
  }

  lemma WorkerAtResult(s: Run, e: ResultEvent)
    requires Inv(s) && e in s.bags.results
    ensures e.index < |s.loop.states| && e.generation == s.loop.states[e.index].generation
    ensures !IsCancelled(s) ==> s.loop.states[e.index].restarts + 1 == s.loop.states[e.index].generation <= s.budget + 1
  {
    assert IndexOk(s.loop.states, s.runners, s.bags, e.index, IsCancelled(s), s.budget);
  }

  lemma ResultOutcome(s: Run, e: ResultEvent)
    requires Inv(s) && s.loop.running && e in s.bags.results
    ensures DecidedBy(s, OnTakenResult(s, e), e) && e.index !in OnTakenResult(s, e).loop.ingress
  {
    WorkerAtResult(s, e);
    ResultDecides(s, e);
  }

  lemma ResultDecides(s: Run, e: ResultEvent)
    requires LoopOk(s.loop) && s.loop.running && e.index < |s.loop.states| && e.generation == s.loop.states[e.index].generation
    requires !IsCancelled(s) ==> s.loop.states[e.index].restarts + 1 == s.loop.states[e.index].generation <= s.budget + 1
    ensures DecidedBy(s, OnTakenResult(s, e), e) && e.index !in OnTakenResult(s, e).loop.ingress
  {
    LoopOutcome(s.loop, e, IsCancelled(s), s.budget);
    ResultKeepsLoopOk(s.loop, e, IsCancelled(s), s.budget);
  }

  lemma LoopOutcome(l: Loop, e: ResultEvent, cancelled: bool, budget: nat)
    requires e.index < |l.states| && e.generation == l.states[e.index].generation && l.running && l.sessionErr.None?
    requires !cancelled ==> l.states[e.index].restarts + 1 == l.states[e.index].generation <= budget + 1
    ensures var l' := OnResult(l, e, cancelled, budget);
            var failure := if cancelled then None else FailureOf(l.states[e.index], e, budget);
            && |l'.states| == |l.states| && !l'.states[e.index].ready
            && l'.sessionErr == failure && (l'.running <==> failure.None?)
            && (Restarts(l, e, cancelled, budget) <==> !cancelled && failure.None?)
  {
  }

  /** A report puts its worker into service with the channel of its generation, a restart before cancellation launches the
      next generation, and the loop ends, with or without a failure, exactly when the ingress has ended or the parent was
      cancelled. */
  predicate OtherDecided(s: Run, s': Run, a: Action) {
    && s'.loop.sessionErr == (if a.TakeIngress? && s.ingressCh == Some(true) && !s.parent then Some(IngressFailed) else s.loop.sessionErr)
    && (s'.loop.running <==> s.loop.running && !a.TakeIngress? && !a.TakeCancel?)
    && (a.TakeReady? ==> InService(s, s', a.ready))
    && (a.TakeRestart? && !s.parent ==> NextLaunched(s, s', a.index))
  }

  predicate InService(s: Run, s': Run, e: ReadyEvent) {
    && e.index < |s'.loop.states| && s'.loop.states[e.index].ready && e.generation == s'.loop.states[e.index].generation
    && s'.loop.ingress == s.loop.ingress[e.index := e.generation]
  }

  predicate NextLaunched(s: Run, s': Run, i: nat) {
    && i < |s.loop.states| && i < |s'.loop.states| && s'.loop.states[i].generation == s.loop.states[i].generation + 1
    && s'.runners == s.runners[(i, s'.loop.states[i].generation) := Launched]
  }

  /** In every run that is what the other events, and the steps of all goroutines, lead to. */
  lemma OtherEventsDecide(connections: nat, budget: nat, actions: seq<Action>, a: Action)
    requires Execute(Start(connections, budget), actions).Some? && !a.TakeResult?
    requires Step(Execute(Start(connections, budget), actions).value, a).Some?
    ensures var s := Execute(Start(connections, budget), actions).value; OtherDecided(s, Step(s, a).value, a)
  {
    Reachable(connections, budget, actions);
    OtherOutcome(Execute(Start(connections, budget), actions).value, a);
  }

  lemma OtherOutcome(s: Run, a: Action)
    requires Inv(s) && Step(s, a).Some? && !a.TakeResult?
    ensures OtherDecided(s, Step(s, a).value, a)
  {
    TakenIs(s, a);
    if a.TakeReady? {
      ReadyOutcome(s, a.ready);
    } else if a.TakeRestart? {
      RestartOutcome(s, a.index);
    } else {
      EndOutcome(s, a);
    }
  }

  lemma ReadyIsCurrent(s: Run, e: ReadyEvent)
    requires Inv(s) && e in s.bags.ready
    ensures e.index < |s.loop.states| && e.generation == s.loop.states[e.index].generation && !s.loop.states[e.index].ready
  {
    assert IndexOk(s.loop.states, s.runners, s.bags, e.index, IsCancelled(s), s.budget);
  }

  lemma ReadyServes(s: Run, e: ReadyEvent)
    requires e.index < |s.loop.states| && e.generation == s.loop.states[e.index].generation && !s.loop.states[e.index].ready
    ensures var s' := OnTakenReady(s, e); InService(s, s', e) && s'.loop.sessionErr == s.loop.sessionErr && s'.loop.running == s.loop.running
  {
  }

  lemma ReadyOutcome(s: Run, e: ReadyEvent)
    requires Inv(s) && Step(s, TakeReady(e)).Some?
    ensures OtherDecided(s, OnTakenReady(s, e), TakeReady(e))
  {
    ReadyIsCurrent(s, e);
    ReadyServes(s, e);
  }

  lemma RestartOutcome(s: Run, i: nat)
    requires Inv(s) && Step(s, TakeRestart(i)).Some?
    ensures OtherDecided(s, OnTakenRestart(s, i), TakeRestart(i))
  {
    assert i in s.bags.restarts;
  }

  lemma EndOutcome(s: Run, a: Action)
    requires Step(s, a).Some? && !a.TakeResult? && !a.TakeReady? && !a.TakeRestart?
    ensures var l := Step(s, a).value.loop;
            && l.sessionErr == (if a.TakeIngress? && s.ingressCh == Some(true) && !s.parent then Some(IngressFailed) else s.loop.sessionErr)
            && (l.running <==> s.loop.running && !a.TakeIngress? && !a.TakeCancel?)
  {
  }
}
