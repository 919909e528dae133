/** What holds over whole runs of the Linux TUN helper's processes. */
module TunRuns {
  import opened Wrappers
  import opened TunCommands
  import opened TunHelper

  /** Processes are never forgotten, so attempts unique at the end were unique all along. */
  predicate Grows(a: Processes, b: Processes) {
    forall p :: p in a ==> p in b && b[p].helper == a[p].helper && b[p].attempt == a[p].attempt
  }

  /** A step changes at most its own process. */
  predicate OnlyMoves(w: World, w': World, p: nat) {
    && w'.foreign == w.foreign && p in w.procs && p in w'.procs
    && (w'.procs == w.procs || w'.procs == w.procs[p := w.procs[p].(pc := w'.procs[p].pc)])
  }

  lemma StartStepMoves(w: World, p: nat, a: Action)
    requires Step(w, p, a).Some? && (a.Begin? || a.Sweep? || a.Write?)
    ensures OnlyMoves(w, Step(w, p, a).value, p)
  {
  }

  lemma BringupStepMoves(w: World, p: nat, a: Action)
    requires Step(w, p, a).Some? && (a.Acquire? || a.Validate? || a.Bringup? || a.Install?)
    ensures OnlyMoves(w, Step(w, p, a).value, p)
  {
  }

  lemma LaterStepMoves(w: World, p: nat, a: Action)
    requires Step(w, p, a).Some? && (a.Attach? || a.Shutdown? || a.TearDown? || a.Release? || a.Poll? || a.Crash?)
    ensures OnlyMoves(w, Step(w, p, a).value, p)
  {
  }

  lemma StepGrows(w: World, p: nat, a: Action)
    requires Step(w, p, a).Some?
    ensures Grows(w.procs, Step(w, p, a).value.procs) && Step(w, p, a).value.foreign == w.foreign
  {
    if a.Begin? || a.Sweep? || a.Write? {
      StartStepMoves(w, p, a);
    } else if a.Acquire? || a.Validate? || a.Bringup? || a.Install? {
      BringupStepMoves(w, p, a);
    } else if !a.Launch? {
      LaterStepMoves(w, p, a);
    }
  }

  lemma {:induction false} RunGrows(w: World, steps: seq<(nat, Action)>)
    requires Execute(w, steps).Some?
    ensures Grows(w.procs, Execute(w, steps).value.procs) && Execute(w, steps).value.foreign == w.foreign
    decreases |steps|
  {
    if steps != [] {
      StepGrows(w, steps[0].0, steps[0].1);
      RunGrows(Step(w, steps[0].0, steps[0].1).value, steps[1..]);
    }
  }

  /** The invariant survives a step exactly if the step is not a poll that takes a live helper's file away. */
  lemma KeptUnlessPolledAway(w: World, p: nat, a: Action)
    requires Inv(w) && Step(w, p, a).Some?
    ensures Inv(Step(w, p, a).value) <==> !PollsAway(w, p, a)
  {
    if PollsAway(w, p, a) {
      var w' := Step(w, p, a).value;
      assert Owns(w'.procs[w.file.value.pid].pc) && w'.file.None?;
      assert !ProcessOk(w', w.file.value.pid);
    } else {
      StepKeeps(w, p, a);
    }
  }

  lemma UniqueIsNeverPolledAway(w: World, p: nat, a: Action)
    requires Inv(w) && AttemptsAreUnique(w.procs)
    ensures !PollsAway(w, p, a)
  {
    if a.Poll? && p in w.procs && w.procs[p].pc.Waiting? && w.file.Some? {
      assert ProcessOk(w, p);
    }
  }

  lemma BootOk(foreign: Table)
    requires LowerHalf !in foreign && UpperHalf !in foreign
    ensures Inv(Boot(foreign))
  {
  }

  lemma {:induction false} RunKeeps(w: World, steps: seq<(nat, Action)>)
    requires Inv(w) && Execute(w, steps).Some? && AttemptsAreUnique(Execute(w, steps).value.procs)
    ensures Inv(Execute(w, steps).value)
    decreases |steps|
  {
    if steps != [] {
      var w1 := Step(w, steps[0].0, steps[0].1).value;
      RunGrows(w1, steps[1..]);
      StepGrows(w, steps[0].0, steps[0].1);
      UniqueIsNeverPolledAway(w, steps[0].0, steps[0].1);
      StepKeeps(w, steps[0].0, steps[0].1);
      RunKeeps(w1, steps[1..]);
    }
  }

  /** The table after the cleanup that the state file calls for. */
  function Recovered(w: World): Table {
    if w.file.None? then w.table else ApplyAll(w.table, SweepCommands(w.file.value.snapshot))
  }

  /** At every point of every run, crashes between any two commands included, foreign routes are untouched, every
      other route is one the state file on disk covers, and the cleanup for that file leaves only foreign routes. */
  lemma NoRouteIsLost(foreign: Table, steps: seq<(nat, Action)>)
    requires LowerHalf !in foreign && UpperHalf !in foreign && Execute(Boot(foreign), steps).Some?
    requires AttemptsAreUnique(Execute(Boot(foreign), steps).value.procs)
    ensures var w := Execute(Boot(foreign), steps).value;
            && (forall d :: d in foreign ==> d in w.table && w.table[d] == foreign[d])
            && (forall d :: d in w.table && d !in foreign ==> w.file.Some? && Covers(w.file.value.snapshot, d, w.table[d]))
            && Recovered(w) == foreign
  {
    BootOk(foreign);
    RunKeeps(Boot(foreign), steps);
    RunGrows(Boot(foreign), steps);
    RecoveredIsForeign(Execute(Boot(foreign), steps).value);
  }

  lemma RecoveredIsForeign(w: World)
    requires Inv(w)
    ensures Recovered(w) == w.foreign
  {
    if w.file.Some? {
      SweepFinishes(w, w.file.value.snapshot);
      var w' := w.(table := Recovered(w));
      FinishAll(w, SweepCommands(w.file.value.snapshot), w');
      assert ForeignOk(w') && Clean(w');
    }
  }

  /** At most one live helper owns the tunnel, and the state file names it. No step of any other process
      changes the state file, the routes or that helper. */
  lemma OwnersAreLeftAlone(foreign: Table, steps: seq<(nat, Action)>, p: nat)
    requires LowerHalf !in foreign && UpperHalf !in foreign && Execute(Boot(foreign), steps).Some?
    requires var w := Execute(Boot(foreign), steps).value;
             AttemptsAreUnique(w.procs) && p in w.procs && Owns(w.procs[p].pc)
    ensures var w := Execute(Boot(foreign), steps).value;
            && w.file.Some? && w.file.value.pid == p && w.file.value.attempt == w.procs[p].attempt
            && (forall q :: q in w.procs && Owns(w.procs[q].pc) ==> q == p)
            && (forall q, a :: q != p && Step(w, q, a).Some? ==>
                  var w' := Step(w, q, a).value;
                  w'.file == w.file && w'.table == w.table && p in w'.procs && w'.procs[p] == w.procs[p])
  {
    var w := Execute(Boot(foreign), steps).value;
    BootOk(foreign);
    RunKeeps(Boot(foreign), steps);
    assert ProcessOk(w, p);
    forall q | q in w.procs && Owns(w.procs[q].pc) ensures q == p {
      OneEngaged(w, p, q);
    }
    forall q, a | q != p && Step(w, q, a).Some?
      ensures var w' := Step(w, q, a).value;
              w'.file == w.file && w'.table == w.table && p in w'.procs && w'.procs[p] == w.procs[p]
    {
      OtherLeavesOwnerAlone(w, p, q, a);
    }
  }

  lemma OtherLeavesOwnerAlone(w: World, p: nat, q: nat, a: Action)
    requires Inv(w) && p in w.procs && Owns(w.procs[p].pc) && q != p && Step(w, q, a).Some? && AttemptsAreUnique(w.procs)
    ensures var w' := Step(w, q, a).value;
            w'.file == w.file && w'.table == w.table && p in w'.procs && w'.procs[p] == w.procs[p]
  {
    EngagedIsAlone(w, p);
    assert ProcessOk(w, p);
    if q in w.procs {
      assert !Engaged(w, q) && ProcessOk(w, q);
      UniqueIsNeverPolledAway(w, q, Poll(true));
    }
  }

  /** Where a process is when it has nothing left to sweep: a sweep or teardown run to its end, a helper about to write
      its record, and a helper that has not begun its bring-up or is about to release the tunnel. */
  predicate HasSwept(pc: Pc) {
    || (pc.Sweeping? && pc.todo == []) || (pc.Teardown? && pc.todo == [])
    || pc.Writing? || pc.Prepared? || pc.Acquired? || pc.Validated? || pc.Releasing?
  }

  /** In every run, whatever interleaves and crashes: whenever some process is at such a point, or there is no state
      file, no tunnel route is left. So a helper that gets as far as owning its record has recovered everything. */
  lemma SweptMeansRecovered(foreign: Table, steps: seq<(nat, Action)>)
    requires LowerHalf !in foreign && UpperHalf !in foreign && Execute(Boot(foreign), steps).Some?
    requires AttemptsAreUnique(Execute(Boot(foreign), steps).value.procs)
    ensures var w := Execute(Boot(foreign), steps).value;
            && (w.file.None? ==> w.table == foreign)
            && (forall p :: p in w.procs && HasSwept(w.procs[p].pc) ==> w.table == foreign)
  {
    BootOk(foreign);
    RunKeeps(Boot(foreign), steps);
    RunGrows(Boot(foreign), steps);
    var w := Execute(Boot(foreign), steps).value;
    if w.file.None? {
      CleanIsForeign(w);
    }
    forall p | p in w.procs && HasSwept(w.procs[p].pc) ensures w.table == foreign {
      SweptIsClean(w, p);
      CleanIsForeign(w);
    }
  }

  lemma CleanIsForeign(w: World)
    requires ForeignOk(w) && Clean(w)
    ensures w.table == w.foreign
  {
  }

  lemma SweptIsClean(w: World, p: nat)
    requires Inv(w) && p in w.procs && HasSwept(w.procs[p].pc)
    ensures Clean(w)
  {
    assert ProcessOk(w, p);
    if w.procs[p].pc.Sweeping? || w.procs[p].pc.Teardown? {
      assert Finishes(w, []);
    }
  }

  /** What a start or a cleanup request comes to. Beside a live helper a start ends, and so does a cleanup request for
      another attempt, while one for that attempt waits. A start without a record claims it. Otherwise what the record
      covers is swept, or the default interface if there is none. */
  lemma BeginsExactly(w: World, p: nat)
    requires Step(w, p, Begin).Some? && (w.file.Some? ==> w.file.value.pid != p)
    ensures var w', me := Step(w, p, Begin).value, w.procs[p];
            var alive := w.file.Some? && Alive(w.procs, w.file.value.pid);
            && p in w'.procs && w'.table == w.table
            && (alive ==>
                  && w'.file == w.file && w'.lock == w.lock
                  && w'.procs[p].pc == if !me.helper && me.attempt == w.file.value.attempt then Waiting(w.file.value) else Ended)
            && (!alive && me.helper && w.file.None? ==>
                  w'.file == Some(Record(me.attempt, p, DEFAULT_SNAPSHOT)) && w'.lock == w.lock && w'.procs[p].pc == Prepared)
            && (!alive && !(me.helper && w.file.None?) ==>
                  var covered := if w.file.Some? then w.file.value.snapshot else DEFAULT_SNAPSHOT;
                  w'.file == w.file && w'.lock == Some(p) && w'.procs[p].pc == Sweeping(SweepCommands(covered), false))
  {
  }

  /** A sweep that failed keeps the record for the next attempt; one that did not takes it away. Both give up the lock,
      unless a helper goes on to write its own record. */
  lemma SweepEndsExactly(w: World, p: nat, ok: bool)
    requires Step(w, p, Sweep(ok)).Some? && w.procs[p].pc.todo == []
    ensures var w', me := Step(w, p, Sweep(ok)).value, w.procs[p];
            && p in w'.procs && w'.table == w.table && w'.file == (if me.pc.failed then w.file else None)
            && (me.pc.failed || !me.helper ==> w'.lock.None? && w'.procs[p].pc == Ended)
            && (!me.pc.failed && me.helper ==> w'.lock == w.lock && w'.procs[p].pc == Writing)
  {
  }

  // ----- recovery after a crash

  /** A process p that starts alone and runs until it has cleaned up. */
  function RecoverySteps(p: nat, helper: bool, attempt: Attempt, snapshot: Snapshot): seq<(nat, Action)> {
    [(p, Launch(helper, attempt)), (p, Begin)]
    + seq(|SweepCommands(snapshot)| + 1, _ => (p, Sweep(true)))
    + if helper then [(p, Write)] else []
  }

  lemma {:induction false} ExecuteConcat(w: World, a: seq<(nat, Action)>, b: seq<(nat, Action)>)
    requires Execute(w, a).Some?
    ensures Execute(w, a + b) == Execute(Execute(w, a).value, b)
    decreases |a|
  {
    if a == [] {
      assert a + b == b;
    } else {
      assert (a + b)[1..] == a[1..] + b;
      ExecuteConcat(Step(w, a[0].0, a[0].1).value, a[1..], b);
    }
  }

  function AfterSweep(w: World, p: nat, table: Table): World
    requires p in w.procs
  {
    if w.procs[p].helper then Move(w.(table := table, file := None), p, Writing)
    else Move(w.(table := table, file := None, lock := None), p, Ended)
  }

  lemma {:induction false} SweepToTheEnd(w: World, p: nat, todo: seq<Command>)
    requires p in w.procs && w.procs[p].pc == Sweeping(todo, false)
    ensures Execute(w, seq(|todo| + 1, _ => (p, Sweep(true)))) == Some(AfterSweep(w, p, ApplyAll(w.table, todo)))
    decreases |todo|
  {
    var steps := seq(|todo| + 1, _ => (p, Sweep(true)));
    assert steps[1..] == seq(|todo|, _ => (p, Sweep(true)));
    if todo == [] {
      SweepEnds(w, p);
    } else {
      var w1 := Move(w.(table := Apply(w.table, todo[0])), p, Sweeping(todo[1..], false));
      assert Step(w, p, Sweep(true)) == Some(w1);
      SweepToTheEnd(w1, p, todo[1..]);
      AfterSweepForgets(w, p, w1.table, todo[1..], ApplyAll(w.table, todo));
    }
  }

  lemma SweepEnds(w: World, p: nat)
    requires p in w.procs && w.procs[p].pc == Sweeping([], false)
    ensures Step(w, p, Sweep(true)) == Some(AfterSweep(w, p, w.table))
  {
    assert Swept(w, p, true) == AfterSweep(w, p, w.table);
  }

  /** Where the sweep of a process stood does not matter for the state it leaves. */
  lemma AfterSweepForgets(w: World, p: nat, before: Table, todo: seq<Command>, table: Table)
    requires p in w.procs
    ensures AfterSweep(Move(w.(table := before), p, Sweeping(todo, false)), p, table) == AfterSweep(w, p, table)
  {
    var w1 := Move(w.(table := before), p, Sweeping(todo, false));
    assert AfterSweep(w1, p, table).procs == AfterSweep(w, p, table).procs;
  }

  lemma StartsSweeping(w: World, p: nat, helper: bool, attempt: Attempt)
    requires p !in w.procs && w.lock.None? && w.file.Some? && !Alive(w.procs, w.file.value.pid) && w.file.value.pid != p
    ensures Execute(w, [(p, Launch(helper, attempt)), (p, Begin)]) ==
            Some(Sweeper(w, p, helper, attempt, SweepCommands(w.file.value.snapshot)))
  {
    var first := [(p, Launch(helper, attempt)), (p, Begin)];
    var w1 := Step(w, p, Launch(helper, attempt)).value;
    var w2 := Step(w1, p, Begin).value;
    assert first[1..] == [(p, Begin)];
    assert w.file.value.pid != p && !Alive(w1.procs, w.file.value.pid);
    assert Execute(w2, [(p, Begin)][1..]) == Some(w2);
    assert Execute(w1, [(p, Begin)]) == Some(w2);
    assert w2.procs == w.procs[p := Process(helper, attempt, Sweeping(SweepCommands(w.file.value.snapshot), false))];
  }

  /** From every reachable state in which the recorded helper is dead and nobody holds the lock, the next start or
      cleanup request that is left to run removes every tunnel route; a start then owns a fresh record. */
  lemma NextStartRecovers(foreign: Table, steps: seq<(nat, Action)>, p: nat, helper: bool, attempt: Attempt)
    requires LowerHalf !in foreign && UpperHalf !in foreign && Execute(Boot(foreign), steps).Some?
    requires var w := Execute(Boot(foreign), steps).value;
             && AttemptsAreUnique(w.procs) && p !in w.procs && w.lock.None?
             && w.file.Some? && !Alive(w.procs, w.file.value.pid)
    ensures var w := Execute(Boot(foreign), steps).value;
            var w' := Execute(w, RecoverySteps(p, helper, attempt, w.file.value.snapshot));
            && w'.Some? && w'.value.table == foreign && w'.value.lock.None?
            && w'.value.file == (if helper then Some(Record(attempt, p, DEFAULT_SNAPSHOT)) else None)
            && (helper ==> p in w'.value.procs && w'.value.procs[p].pc == Prepared)
  {
    var w := Execute(Boot(foreign), steps).value;
    NoRouteIsLost(foreign, steps);
    BootOk(foreign);
    RunKeeps(Boot(foreign), steps);
    StartsSweeping(w, p, helper, attempt);
    RecoveryEnds(w, p, helper, attempt, w.file.value.snapshot);
  }

  function AfterRecovery(w: World, p: nat, helper: bool, attempt: Attempt, table: Table): World {
    World(table, w.foreign, if helper then Some(Record(attempt, p, DEFAULT_SNAPSHOT)) else None, None,
          w.procs[p := Process(helper, attempt, if helper then Prepared else Ended)])
  }

  function Sweeper(w: World, p: nat, helper: bool, attempt: Attempt, todo: seq<Command>): World {
    w.(lock := Some(p), procs := w.procs[p := Process(helper, attempt, Sweeping(todo, false))])
  }

  lemma WrittenAfterSweep(w: World, p: nat, helper: bool, attempt: Attempt, todo: seq<Command>, table: Table)
    ensures var w3 := AfterSweep(Sweeper(w, p, helper, attempt, todo), p, table);
            if helper then Step(w3, p, Write) == Some(AfterRecovery(w, p, helper, attempt, table))
            else w3 == AfterRecovery(w, p, helper, attempt, table)
  {
    var w3 := AfterSweep(Sweeper(w, p, helper, attempt, todo), p, table);
    if helper {
      assert Step(w3, p, Write).value.procs == AfterRecovery(w, p, helper, attempt, table).procs;
    } else {
      assert w3.procs == AfterRecovery(w, p, helper, attempt, table).procs;
    }
  }

  /** Three runs in a row. */
  lemma Chained(w: World, a: seq<(nat, Action)>, w1: World, b: seq<(nat, Action)>, w2: World, c: seq<(nat, Action)>, w3: World)
    requires Execute(w, a) == Some(w1) && Execute(w1, b) == Some(w2) && Execute(w2, c) == Some(w3)
    ensures Execute(w, a + b + c) == Some(w3)
  {
    ExecuteConcat(w, a, b);
    ExecuteConcat(w, a + b, c);
  }

  lemma LastWrite(w: World, p: nat, helper: bool, attempt: Attempt, todo: seq<Command>, table: Table)
    ensures Execute(AfterSweep(Sweeper(w, p, helper, attempt, todo), p, table), if helper then [(p, Write)] else []) ==
            Some(AfterRecovery(w, p, helper, attempt, table))
  {
    WrittenAfterSweep(w, p, helper, attempt, todo, table);
    if helper {
      OneStep(AfterSweep(Sweeper(w, p, helper, attempt, todo), p, table), p, Write);
    }
  }

  lemma RecoveryEnds(w: World, p: nat, helper: bool, attempt: Attempt, s: Snapshot)
    requires Execute(w, [(p, Launch(helper, attempt)), (p, Begin)]) == Some(Sweeper(w, p, helper, attempt, SweepCommands(s)))
    ensures Execute(w, RecoverySteps(p, helper, attempt, s)) ==
            Some(AfterRecovery(w, p, helper, attempt, ApplyAll(w.table, SweepCommands(s))))
  {
    var table := ApplyAll(w.table, SweepCommands(s));
    var w2 := Sweeper(w, p, helper, attempt, SweepCommands(s));
    SweepToTheEnd(w2, p, SweepCommands(s));
    LastWrite(w, p, helper, attempt, SweepCommands(s), table);
    Chained(w, [(p, Launch(helper, attempt)), (p, Begin)], w2, seq(|SweepCommands(s)| + 1, _ => (p, Sweep(true))),
            AfterSweep(w2, p, table), if helper then [(p, Write)] else [], AfterRecovery(w, p, helper, attempt, table));
  }

  lemma OneStep(w: World, p: nat, a: Action)
    requires Step(w, p, a).Some?
    ensures Execute(w, [(p, a)]) == Step(w, p, a)
  {
    assert Execute(Step(w, p, a).value, [(p, a)][1..]) == Step(w, p, a);
  }
}
