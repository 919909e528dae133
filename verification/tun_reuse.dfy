/** What goes wrong when two helpers are started for the same attempt: a cleanup request that still waits for the
    first one takes the state file of the second. */
module TunReuse {
  import opened Wrappers
  import opened TunCommands
  import opened TunHelper
  import opened TunRuns

  const SAME := Attempt("linux-tun", "nonce")

  const UNDERLAY := Underlay("eth0", "", ["192.0.2.1"])

  /** Helper 1 starts; cleanup request 2 waits for it; it crashes. */
  const BEFORE: seq<(nat, Action)> := [(1, Launch(true, SAME)), (1, Begin), (2, Launch(false, SAME)), (2, Begin), (1, Crash)]

  /** Helper 3 starts for the same attempt and cleans up after helper 1. */
  const RESTART: seq<(nat, Action)> := RecoverySteps(3, true, SAME, DEFAULT_SNAPSHOT)

  /** The waiting request polls, and helper 3 goes on to install a route. */
  const AFTER: seq<(nat, Action)> :=
    [(2, Poll(true)), (3, Acquire(Some("tun1"))), (3, Validate(Some(UNDERLAY))), (3, Bringup(1)),
     (3, Install(true)), (3, Install(true)), (3, Install(true))]

  const FIRST_RECORD := Record(SAME, 1, DEFAULT_SNAPSHOT)

  function Crashed(): World {
    World(map[], map[], Some(FIRST_RECORD), None,
          map[1 := Process(true, SAME, Ended), 2 := Process(false, SAME, Waiting(FIRST_RECORD))])
  }

  /** The second helper, once it took over. */
  function Restarted(): World {
    World(map[], map[], Some(Record(SAME, 3, DEFAULT_SNAPSHOT)), None, Crashed().procs[3 := Process(true, SAME, Prepared)])
  }

  /** The same, after the poll. */
  function Robbed(): World {
    World(map[], map[], None, None,
          map[1 := Process(true, SAME, Ended), 2 := Process(false, SAME, Ended), 3 := Process(true, SAME, Prepared)])
  }

  const SNAPSHOT := Snapshot("tun1", "eth0", "", ["192.0.2.1"])

  lemma Sequence(w: World, steps: seq<(nat, Action)>, w1: World)
    requires steps != [] && Step(w, steps[0].0, steps[0].1) == Some(w1)
    ensures Execute(w, steps) == Execute(w1, steps[1..])
  {
  }

  lemma ReachesCrashed()
    ensures Execute(Boot(map[]), BEFORE) == Some(Crashed())
  {
    var w1 := Step(Boot(map[]), 1, Launch(true, SAME)).value;
    Sequence(Boot(map[]), BEFORE, w1);
    var w2 := Step(w1, 1, Begin).value;
    assert w2.file == Some(FIRST_RECORD) && w2.procs == map[1 := Process(true, SAME, Prepared)];
    Sequence(w1, BEFORE[1..], w2);
    var w3 := Step(w2, 2, Launch(false, SAME)).value;
    Sequence(w2, BEFORE[2..], w3);
    var w4 := Step(w3, 2, Begin).value;
    assert w4.procs == map[1 := Process(true, SAME, Prepared), 2 := Process(false, SAME, Waiting(FIRST_RECORD))];
    Sequence(w3, BEFORE[3..], w4);
    var w5 := Step(w4, 1, Crash).value;
    assert w5.procs == Crashed().procs;
    Sequence(w4, BEFORE[4..], w5);
    assert Execute(w5, BEFORE[5..]) == Some(w5);
  }

  lemma ReachesRestarted()
    ensures Execute(Crashed(), RESTART) == Some(Restarted())
  {
    StartsSweeping(Crashed(), 3, true, SAME);
    RecoveryEnds(Crashed(), 3, true, SAME, DEFAULT_SNAPSHOT);
    AppliedDeletions(map[], SweepCommands(DEFAULT_SNAPSHOT));
  }

  /** Helper 3, about to run the given commands. */
  function Upgrading(table: Table, pc: Pc): World { Robbed().(table := table, procs := Robbed().procs[3 := Process(true, SAME, pc)]) }

  lemma Polls()
    ensures Step(Restarted(), 2, Poll(true)) == Some(Robbed())
  {
    AppliedDeletions(map[], SweepCommands(DEFAULT_SNAPSHOT));
    assert Step(Restarted(), 2, Poll(true)).value.procs == Robbed().procs;
  }

  const ACQUIRED := Snapshot("tun1", "", "", [])

  lemma Prepares()
    ensures Step(Robbed(), 3, Acquire(Some("tun1"))) == Some(Upgrading(map[], Acquired(ACQUIRED)))
    ensures Step(Upgrading(map[], Acquired(ACQUIRED)), 3, Validate(Some(UNDERLAY))) == Some(Upgrading(map[], Validated(SNAPSHOT)))
    ensures Step(Upgrading(map[], Validated(SNAPSHOT)), 3, Bringup(1)) == Some(Upgrading(map[], Installing(SNAPSHOT, BringupCommands(SNAPSHOT, 1))))
  {
    assert Step(Upgrading(map[], Acquired(ACQUIRED)), 3, Validate(Some(UNDERLAY))).value.procs == Upgrading(map[], Validated(SNAPSHOT)).procs;
    assert Step(Upgrading(map[], Validated(SNAPSHOT)), 3, Bringup(1)).value.procs ==
           Upgrading(map[], Installing(SNAPSHOT, BringupCommands(SNAPSHOT, 1))).procs;
  }

  lemma Installs(table: Table, todo: seq<Command>)
    requires todo != []
    ensures Step(Upgrading(table, Installing(SNAPSHOT, todo)), 3, Install(true)) ==
            Some(Upgrading(Apply(table, todo[0]), Installing(SNAPSHOT, todo[1..])))
  {
    assert Step(Upgrading(table, Installing(SNAPSHOT, todo)), 3, Install(true)).value.procs ==
           Upgrading(Apply(table, todo[0]), Installing(SNAPSHOT, todo[1..])).procs;
  }

  /** A route without a record. */
  function Stray(): World {
    Upgrading(map[LowerHalf := Route("", "tun1")], Installing(SNAPSHOT, BringupCommands(SNAPSHOT, 1)[3..]))
  }

  lemma InstallsStray()
    ensures Execute(Upgrading(map[], Installing(SNAPSHOT, BringupCommands(SNAPSHOT, 1))), AFTER[4..]) == Some(Stray())
  {
    var todo := BringupCommands(SNAPSHOT, 1);
    assert todo[0] == Other && todo[1] == Other && todo[2] == Replace(LowerHalf, "", "tun1");
    Installs(map[], todo);
    Installs(map[], todo[1..]);
    Installs(map[], todo[2..]);
    Sequence(Upgrading(map[], Installing(SNAPSHOT, todo)), AFTER[4..], Upgrading(map[], Installing(SNAPSHOT, todo[1..])));
    Sequence(Upgrading(map[], Installing(SNAPSHOT, todo[1..])), AFTER[5..], Upgrading(map[], Installing(SNAPSHOT, todo[2..])));
    Sequence(Upgrading(map[], Installing(SNAPSHOT, todo[2..])), AFTER[6..], Stray());
    assert Execute(Stray(), AFTER[7..]) == Some(Stray());
  }

  lemma ReachesStray()
    ensures Execute(Restarted(), AFTER) == Some(Stray())
  {
    Polls();
    Prepares();
    InstallsStray();
    Sequence(Restarted(), AFTER, Robbed());
    Sequence(Robbed(), AFTER[1..], Upgrading(map[], Acquired(ACQUIRED)));
    Sequence(Upgrading(map[], Acquired(ACQUIRED)), AFTER[2..], Upgrading(map[], Validated(SNAPSHOT)));
    Sequence(Upgrading(map[], Validated(SNAPSHOT)), AFTER[3..], Upgrading(map[], Installing(SNAPSHOT, BringupCommands(SNAPSHOT, 1))));
  }

  /** With a reused attempt, a live helper can own the tunnel while the state file is gone and a tunnel route that
      no cleanup knows of is installed. */
  lemma ReusedAttemptLosesRoutes()
    ensures Execute(Boot(map[]), BEFORE + RESTART + AFTER) == Some(Stray())
    ensures !AttemptsAreUnique(Stray().procs)
    ensures Alive(Stray().procs, 3) && Owns(Stray().procs[3].pc) && Stray().file.None?
    ensures Recovered(Stray()) != Stray().foreign
  {
    ReachesCrashed();
    ReachesRestarted();
    ReachesStray();
    Chained(Boot(map[]), BEFORE, Crashed(), RESTART, Restarted(), AFTER, Stray());
    assert Stray().procs[1].helper && Stray().procs[3].helper;
    assert LowerHalf in Recovered(Stray());
  }
}
