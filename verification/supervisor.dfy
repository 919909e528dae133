/** The event loop that supervises a session's workers. */
module Supervisor {
  import opened Wrappers

  datatype WorkerState = WorkerState(generation: nat, restarts: nat, ready: bool)

  datatype ReadyEvent = ReadyEvent(index: nat, generation: nat)

  datatype ResultEvent = ResultEvent(index: nat, generation: nat, failed: bool)

  datatype Failure = StoppedWithoutError(index: nat) | StartupFailed(index: nat) | BudgetExhausted(index: nat) | IngressFailed

  /** The loop's own variables, the worker set it keeps in the ingress (index to the generation whose channel it
      holds), and what it told the observer. */
  datatype Loop = Loop(
    states: seq<WorkerState>,
    readyWorkers: int,
    sessionReady: bool,
    sessionErr: Option<Failure>,
    running: bool,
    ingress: map<nat, nat>,
    recordedStarts: nat,
    recordedFailures: nat)

  datatype LoopEvent =
    | Ready(ready: ReadyEvent)
    | Result(result: ResultEvent)
    | Restart(index: nat)
    | IngressEnded(failed: bool)
    | Cancelled

  function SetState(l: Loop, i: nat, st: WorkerState): Loop
    requires i < |l.states|
  {
    l.(states := l.states[i := st])
  }

  function Fail(l: Loop, f: Failure): Loop {
    l.(sessionErr := Some(f), recordedFailures := l.recordedFailures + 1, running := false)
  }

  function OnReady(l: Loop, e: ReadyEvent): Loop {
    if e.index >= |l.states| || l.states[e.index].generation != e.generation || l.states[e.index].ready then l else
    var l1 := SetState(l, e.index, l.states[e.index].(ready := true))
              .(readyWorkers := l.readyWorkers + 1, ingress := l.ingress[e.index := e.generation]);
    if !l1.sessionReady && l1.readyWorkers == |l1.states| then
      l1.(sessionReady := true, recordedStarts := l1.recordedStarts + 1)
    else l1
  }

  /** A consumed result first takes the worker out of service. */
  function Retired(l: Loop, i: nat): Loop
    requires i < |l.states|
  {
    if !l.states[i].ready then l
    else SetState(l, i, l.states[i].(ready := false)).(readyWorkers := l.readyWorkers - 1, ingress := l.ingress - {i})
  }

  /** Whether this result leads to a restart. */
  predicate Restarts(l: Loop, e: ResultEvent, cancelled: bool, budget: nat) {
    e.index < |l.states| && l.states[e.index].generation == e.generation && !cancelled && e.failed &&
    l.states[e.index].ready && l.states[e.index].restarts < budget
  }

  function OnResult(l: Loop, e: ResultEvent, cancelled: bool, budget: nat): Loop {
    if e.index >= |l.states| || l.states[e.index].generation != e.generation then l else
    var wasReady := l.states[e.index].ready;
    var l1 := Retired(l, e.index);
    var st := l1.states[e.index];
    if cancelled then l1
    else if !e.failed then Fail(l1, StoppedWithoutError(e.index))
    else if !wasReady then Fail(l1, StartupFailed(e.index))
    else if st.restarts < budget then SetState(l1, e.index, st.(restarts := st.restarts + 1))
    else Fail(l1, BudgetExhausted(e.index))
  }

  function OnRestart(l: Loop, i: nat, cancelled: bool): Loop {
    if cancelled || i >= |l.states| then l
    else SetState(l, i, l.states[i].(generation := l.states[i].generation + 1))
  }

  function OnIngress(l: Loop, failed: bool, cancelled: bool): Loop {
    if failed && !cancelled then Fail(l, IngressFailed) else l.(running := false)
  }

  function Handle(l: Loop, e: LoopEvent, cancelled: bool, budget: nat): Loop {
    match e
    case Ready(r) => OnReady(l, r)
    case Result(r) => OnResult(l, r, cancelled, budget)
    case Restart(i) => OnRestart(l, i, cancelled)
    case IngressEnded(failed) => OnIngress(l, failed, cancelled)
    case Cancelled => l.(running := false)
  }

  // ----- what the loop keeps, whatever it is sent

  function CountReady(states: seq<WorkerState>): nat {
    if states == [] then 0 else (if states[0].ready then 1 else 0) + CountReady(states[1..])
  }

  lemma {:induction false} CountUpdate(states: seq<WorkerState>, i: nat, st: WorkerState)
    requires i < |states|
    ensures CountReady(states[i := st]) + (if states[i].ready then 1 else 0) ==
            CountReady(states) + (if st.ready then 1 else 0)
  {
    if i == 0 {
      assert states[0 := st][1..] == states[1..];
    } else {
      assert states[i := st][1..] == states[1..][i - 1 := st];
      CountUpdate(states[1..], i - 1, st);
    }
  }

  lemma {:induction false} CountAll(states: seq<WorkerState>)
    ensures CountReady(states) <= |states|
    ensures CountReady(states) == |states| <==> forall i :: 0 <= i < |states| ==> states[i].ready
  {
    if states != [] {
      CountAll(states[1..]);
      if CountReady(states) == |states| {
        forall i | 0 <= i < |states| ensures states[i].ready {
          assert i > 0 ==> states[i] == states[1..][i - 1];
        }
      }
      if forall i :: 0 <= i < |states| ==> states[i].ready {
        assert forall i :: 0 <= i < |states[1..]| ==> states[1..][i] == states[i + 1];
      }
    }
  }

  predicate AllReady(states: seq<WorkerState>) { |states| > 0 && forall i :: 0 <= i < |states| ==> states[i].ready }

  ghost predicate LoopOk(l: Loop) {
    && l.readyWorkers == CountReady(l.states)
    && (forall i :: i in l.ingress <==> 0 <= i < |l.states| && l.states[i].ready)
    && (forall i :: i in l.ingress && i < |l.states| ==> l.ingress[i] == l.states[i].generation)
    && (AllReady(l.states) ==> l.sessionReady)
    && l.recordedStarts == (if l.sessionReady then 1 else 0)
    && l.recordedFailures == (if l.sessionErr.Some? then 1 else 0)
    && (l.running ==> l.sessionErr.None?)
  }

  /** Restart events are only sent for workers out of service; that is the one thing the loop relies on here. */
  predicate Acceptable(l: Loop, e: LoopEvent) {
    e.Restart? && e.index < |l.states| ==> !l.states[e.index].ready
  }

  lemma ReadyKeepsLoopOk(l: Loop, r: ReadyEvent)
    requires LoopOk(l)
    ensures LoopOk(OnReady(l, r)) && |OnReady(l, r).states| == |l.states|
    ensures l.sessionReady ==> OnReady(l, r).sessionReady
    ensures OnReady(l, r).recordedStarts > l.recordedStarts ==> AllReady(OnReady(l, r).states)
  {
    if r.index < |l.states| {
      CountUpdate(l.states, r.index, l.states[r.index].(ready := true));
      CountAll(OnReady(l, r).states);
    }
  }

  lemma RetiredKeepsLoopOk(l: Loop, i: nat)
    requires LoopOk(l) && i < |l.states|
    ensures LoopOk(Retired(l, i)) && !Retired(l, i).states[i].ready
  {
    CountUpdate(l.states, i, l.states[i].(ready := false));
    assert !Retired(l, i).states[i].ready;
  }

  lemma SetStateKeepsLoopOk(l: Loop, i: nat, st: WorkerState)
    requires LoopOk(l) && i < |l.states| && !l.states[i].ready && !st.ready
    ensures LoopOk(SetState(l, i, st))
  {
    CountUpdate(l.states, i, st);
    assert !SetState(l, i, st).states[i].ready;
  }

  lemma ResultKeepsLoopOk(l: Loop, r: ResultEvent, cancelled: bool, budget: nat)
    requires LoopOk(l) && l.running
    ensures LoopOk(OnResult(l, r, cancelled, budget)) && |OnResult(l, r, cancelled, budget).states| == |l.states|
    ensures OnResult(l, r, cancelled, budget).recordedStarts == l.recordedStarts
    ensures OnResult(l, r, cancelled, budget).sessionReady == l.sessionReady
  {
    if r.index < |l.states| {
      RetiredKeepsLoopOk(l, r.index);
      var l1 := Retired(l, r.index);
      SetStateKeepsLoopOk(l1, r.index, l1.states[r.index].(restarts := l1.states[r.index].restarts + 1));
    }
  }

  /** Whatever the order of events: the ready count is the number of ready workers, the ingress holds exactly
      those, each with the channel of its current generation, at most one failure is recorded and at most one start,
      and the start by the first event that leaves all workers ready together. */
  lemma HandleKeepsLoopOk(l: Loop, e: LoopEvent, cancelled: bool, budget: nat)
    requires LoopOk(l) && l.running && Acceptable(l, e)
    ensures var l' := Handle(l, e, cancelled, budget);
            && LoopOk(l') && |l'.states| == |l.states|
            && (l'.sessionReady <==> l.sessionReady || AllReady(l'.states))
  {
    match e
    case Ready(r) => ReadyKeepsLoopOk(l, r);
    case Result(r) => ResultKeepsLoopOk(l, r, cancelled, budget);
    case Restart(i) =>
      if i < |l.states| {
        SetStateKeepsLoopOk(l, i, l.states[i].(generation := l.states[i].generation + 1));
      }
    case _ =>
  }

  // ----- the loop as an object

  class SupervisorLoop {
    const budget: nat
    var states: seq<WorkerState>
    var readyWorkers: int
    var sessionReady: bool
    var sessionErr: Option<Failure>
    var running: bool
    var ingress: map<nat, nat>
    var recordedStarts: nat
    var recordedFailures: nat

    ghost function Value(): Loop
      reads this
    {
      Loop(states, readyWorkers, sessionReady, sessionErr, running, ingress, recordedStarts, recordedFailures)
    }

    constructor (connections: nat, budget: nat)
      ensures this.budget == budget && Value() == FirstLoop(connections) && LoopOk(Value())
    {
      this.budget := budget;
      states := seq(connections, _ => WorkerState(1, 0, false));
      readyWorkers, sessionReady, sessionErr, running := 0, false, None, true;
      ingress, recordedStarts, recordedFailures := map[], 0, 0;
      new;
      NoneReady(connections);
    }

    /** One turn of the select: the handler of whichever event was picked. */
    method HandleEvent(e: LoopEvent, cancelled: bool)
      requires LoopOk(Value()) && running && Acceptable(Value(), e)
      modifies this
      ensures Value() == Handle(old(Value()), e, cancelled, budget) && LoopOk(Value())
    {
      HandleKeepsLoopOk(Value(), e, cancelled, budget);
      match e
      case Ready(r) =>
        HandleReady(r);
      case Result(r) =>
        HandleResult(r, cancelled);
      case Restart(i) =>
        if !cancelled && i < |states| {
          states := states[i := states[i].(generation := states[i].generation + 1)];
        }
      case IngressEnded(failed) =>
        if failed && !cancelled {
          RecordFailure(IngressFailed);
        }
        running := false;
      case Cancelled =>
        running := false;
    }

    method HandleReady(r: ReadyEvent)
      modifies this
      ensures Value() == OnReady(old(Value()), r)
      ensures OnReady(Value(), r) == Value() && readyWorkers <= old(readyWorkers) + 1
      ensures LoopOk(old(Value())) ==> LoopOk(Value())
      ensures LoopOk(old(Value())) ==> (sessionReady <==> old(sessionReady) || AllReady(states)) && recordedStarts == if sessionReady then 1 else 0
      ensures r.index < |states| && states[r.index].generation == r.generation ==> states[r.index].ready
    {
      if LoopOk(Value()) {
        ReadyKeepsLoopOk(Value(), r);
      }
      if r.index >= |states| || states[r.index].generation != r.generation || states[r.index].ready {
        return;
      }
      states := states[r.index := states[r.index].(ready := true)];
      readyWorkers := readyWorkers + 1;
      ingress := ingress[r.index := r.generation];
      if !sessionReady && readyWorkers == |states| {
        sessionReady := true;
        recordedStarts := recordedStarts + 1;
      }
    }

    method HandleResult(r: ResultEvent, cancelled: bool)
      modifies this
      ensures Value() == OnResult(old(Value()), r, cancelled, budget)
      ensures LoopOk(old(Value())) && old(running) ==> LoopOk(Value())
      ensures LoopOk(old(Value())) && r.index < |states| && states[r.index].generation == r.generation ==> r.index !in ingress
    {
      if LoopOk(Value()) && running {
        ResultKeepsLoopOk(Value(), r, cancelled, budget);
      }
      if r.index >= |states| || states[r.index].generation != r.generation {
        return;
      }
      var wasReady := states[r.index].ready;
      if wasReady {
        readyWorkers := readyWorkers - 1;
        states := states[r.index := states[r.index].(ready := false)];
        ingress := ingress - {r.index};
      }
      if cancelled {
        return;
      }
      if !r.failed {
        RecordFailure(StoppedWithoutError(r.index));
      } else if !wasReady {
        RecordFailure(StartupFailed(r.index));
      } else if states[r.index].restarts < budget {
        states := states[r.index := states[r.index].(restarts := states[r.index].restarts + 1)];
      } else {
        RecordFailure(BudgetExhausted(r.index));
      }
    }

    method RecordFailure(f: Failure)
      modifies this
      ensures Value() == Fail(old(Value()), f)
    {
      sessionErr, running := Some(f), false;
      recordedFailures := recordedFailures + 1;
    }
  }

  function FirstLoop(connections: nat): Loop {
    Loop(seq(connections, _ => WorkerState(1, 0, false)), 0, false, None, true, map[], 0, 0)
  }

  lemma {:induction false} NoneReady(n: nat)
    ensures CountReady(seq(n, _ => WorkerState(1, 0, false))) == 0
  {
    if n > 0 {
      NoneReady(n - 1);
      var s := seq(n, _ => WorkerState(1, 0, false));
      assert s[1..] == seq(n - 1, _ => WorkerState(1, 0, false));
    }
  }
}
