/** What a helper that owns the tunnel has installed, in every run of the Linux TUN helper's processes. */
module TunServing {
  import opened Wrappers
  import opened TunCommands
  import opened TunHelper
  import opened TunRuns

  predicate Has(t: Table, d: Destination, r: Route) { d in t && t[d] == r }

  predicate Installs(c: Command, d: Destination, r: Route) { c == Replace(d, r.via, r.dev) }

  /** Every route a snapshot needs is there, or still among the commands to come; these install nothing else. */
  ghost predicate Underway(t: Table, s: Snapshot, todo: seq<Command>) {
    && (forall d :: Wants(s, d).Some? ==> Has(t, d, Wants(s, d).value) || exists i :: 0 <= i < |todo| && Installs(todo[i], d, Wants(s, d).value))
    && (forall i :: 0 <= i < |todo| ==> !todo[i].Delete? && (todo[i].Replace? ==> Wants(s, todo[i].dest) == Some(Route(todo[i].via, todo[i].dev))))
  }

  ghost predicate Equipped(t: Table, pc: Pc) {
    match pc
    case Installing(s, todo) => Underway(t, s, todo)
    case Installed(s) => Underway(t, s, [])
    case Serving(s) => Underway(t, s, [])
    case _ => true
  }

  ghost predicate AllEquipped(w: World) { forall p :: p in w.procs ==> Equipped(w.table, w.procs[p].pc) }

  lemma {:induction false} InstallationsListed(s: Snapshot, hosts: seq<string>, a: string)
    requires a in hosts
    ensures exists i :: 0 <= i < |Installations(s, hosts)| && Installs(Installations(s, hosts)[i], Host(a), Route(s.gateway, s.device))
  {
    var all := Installations(s, hosts);
    if hosts[0] == a {
      assert Installs(all[0], Host(a), Route(s.gateway, s.device));
    } else {
      InstallationsListed(s, hosts[1..], a);
      var i :| 0 <= i < |Installations(s, hosts[1..])| && Installs(Installations(s, hosts[1..])[i], Host(a), Route(s.gateway, s.device));
      assert all[i + 1] == Installations(s, hosts[1..])[i];
    }
  }

  lemma BringupIsListed(s: Snapshot, addresses: nat, d: Destination)
    requires Wants(s, d).Some?
    ensures exists i :: 0 <= i < |BringupCommands(s, addresses)| && Installs(BringupCommands(s, addresses)[i], d, Wants(s, d).value)
  {
    var all := BringupCommands(s, addresses);
    match d
    case LowerHalf => assert Installs(all[addresses + 1], d, Wants(s, d).value);
    case UpperHalf => assert Installs(all[addresses + 2], d, Wants(s, d).value);
    case Host(a) =>
      InstallationsListed(s, s.exclusions, a);
      var i :| 0 <= i < |Installations(s, s.exclusions)| && Installs(Installations(s, s.exclusions)[i], d, Wants(s, d).value);
      assert all[addresses + 3 + i] == Installations(s, s.exclusions)[i];
  }

  lemma BringupIsUnderway(t: Table, s: Snapshot, addresses: nat)
    ensures Underway(t, s, BringupCommands(s, addresses))
  {
    forall d | Wants(s, d).Some?
      ensures exists i :: 0 <= i < |BringupCommands(s, addresses)| && Installs(BringupCommands(s, addresses)[i], d, Wants(s, d).value)
    {
      BringupIsListed(s, addresses, d);
    }
    InstallationsCovered(s, s.exclusions);
    forall i | 0 <= i < |Installations(s, s.exclusions)| ensures Installations(s, s.exclusions)[i] in Installations(s, s.exclusions) {
    }
  }

  lemma OneInstalled(t: Table, s: Snapshot, todo: seq<Command>)
    requires Underway(t, s, todo) && todo != []
    ensures Underway(Apply(t, todo[0]), s, todo[1..])
  {
    var t', rest := Apply(t, todo[0]), todo[1..];
    forall d | Wants(s, d).Some?
      ensures Has(t', d, Wants(s, d).value) || exists i :: 0 <= i < |rest| && Installs(rest[i], d, Wants(s, d).value)
    {
      if !Has(t, d, Wants(s, d).value) {
        var i :| 0 <= i < |todo| && Installs(todo[i], d, Wants(s, d).value);
        assert i > 0 ==> rest[i - 1] == todo[i];
      }
    }
    assert forall i :: 0 <= i < |rest| ==> rest[i] == todo[i + 1];
  }

  lemma OwnStep(w: World, p: nat, a: Action)
    requires Inv(w) && AllEquipped(w) && Step(w, p, a).Some? && p in w.procs
    ensures p in Step(w, p, a).value.procs && Equipped(Step(w, p, a).value.table, Step(w, p, a).value.procs[p].pc)
  {
    assert Equipped(w.table, w.procs[p].pc);
    match a
    case Bringup(addresses) => BringupIsUnderway(w.table, w.procs[p].pc.snapshot, addresses);
    case Install(ok) => OwnInstall(w, p, ok);
    case Attach(ok) =>
    case _ => UnequippedStep(w, p, a);
  }

  lemma OwnInstall(w: World, p: nat, ok: bool)
    requires Step(w, p, Install(ok)).Some? && Equipped(w.table, w.procs[p].pc)
    ensures p in InstalledNext(w, p, ok).procs && Equipped(InstalledNext(w, p, ok).table, InstalledNext(w, p, ok).procs[p].pc)
  {
    var pc := w.procs[p].pc;
    if pc.todo != [] {
      OneInstalled(w.table, pc.snapshot, pc.todo);
    }
  }

  /** No other step of a process leaves it with its routes in place or on the way. */
  lemma UnequippedStep(w: World, p: nat, a: Action)
    requires Step(w, p, a).Some? && p in w.procs && !a.Bringup? && !a.Install? && !a.Attach?
    ensures var w' := Step(w, p, a).value;
            p in w'.procs && !(w'.procs[p].pc.Installing? || w'.procs[p].pc.Installed? || w'.procs[p].pc.Serving?)
  {
  }

  lemma StepEquips(w: World, q: nat, a: Action)
    requires Inv(w) && AttemptsAreUnique(w.procs) && AllEquipped(w) && Step(w, q, a).Some?
    ensures AllEquipped(Step(w, q, a).value)
  {
    var w' := Step(w, q, a).value;
    forall p | p in w'.procs ensures Equipped(w'.table, w'.procs[p].pc) {
      if p == q && q in w.procs {
        OwnStep(w, q, a);
      } else if p != q {
        OthersStay(w, q, a, p);
        if Owns(w.procs[p].pc) {
          OtherLeavesOwnerAlone(w, p, q, a);
          assert Equipped(w.table, w.procs[p].pc);
        }
      }
    }
  }

  lemma OthersStay(w: World, q: nat, a: Action, p: nat)
    requires Step(w, q, a).Some? && p != q && p in Step(w, q, a).value.procs
    ensures p in w.procs && Step(w, q, a).value.procs[p] == w.procs[p]
  {
    if a.Begin? || a.Sweep? || a.Write? {
      StartStepMoves(w, q, a);
    } else if a.Acquire? || a.Validate? || a.Bringup? || a.Install? {
      BringupStepMoves(w, q, a);
    } else if !a.Launch? {
      LaterStepMoves(w, q, a);
    }
  }

  lemma {:induction false} RunEquips(w: World, steps: seq<(nat, Action)>)
    requires Inv(w) && AllEquipped(w) && Execute(w, steps).Some? && AttemptsAreUnique(Execute(w, steps).value.procs)
    ensures AllEquipped(Execute(w, steps).value)
    decreases |steps|
  {
    if steps != [] {
      var w1 := Step(w, steps[0].0, steps[0].1).value;
      RunGrows(w1, steps[1..]);
      StepGrows(w, steps[0].0, steps[0].1);
      StepEquips(w, steps[0].0, steps[0].1);
      UniqueIsNeverPolledAway(w, steps[0].0, steps[0].1);
      StepKeeps(w, steps[0].0, steps[0].1);
      RunEquips(w1, steps[1..]);
    }
  }

  /** In every run, crashes of other processes and cleanup requests included: as long as a helper is serving, or about
      to, both halves go through its device, every excluded host around it, and all other routes are the foreign ones. */
  lemma ServingHasItsRoutes(foreign: Table, steps: seq<(nat, Action)>, p: nat)
    requires LowerHalf !in foreign && UpperHalf !in foreign && Execute(Boot(foreign), steps).Some?
    requires var w := Execute(Boot(foreign), steps).value;
             AttemptsAreUnique(w.procs) && p in w.procs && (w.procs[p].pc.Installed? || w.procs[p].pc.Serving?)
    ensures var w := Execute(Boot(foreign), steps).value;
            var s := w.procs[p].pc.snapshot;
            && InstalledOver(foreign, w.table, s)
            && Has(w.table, LowerHalf, Route("", s.iface)) && Has(w.table, UpperHalf, Route("", s.iface))
            && (forall a :: a in s.exclusions ==> Has(w.table, Host(a), Route(s.gateway, s.device)))
  {
    BootOk(foreign);
    RunKeeps(Boot(foreign), steps);
    RunEquips(Boot(foreign), steps);
    NoRouteIsLost(foreign, steps);
    RunGrows(Boot(foreign), steps);
    var w := Execute(Boot(foreign), steps).value;
    ServingTable(w, p);
  }

  lemma ServingTable(w: World, p: nat)
    requires Inv(w) && AllEquipped(w) && p in w.procs && (w.procs[p].pc.Installed? || w.procs[p].pc.Serving?)
    ensures InstalledOver(w.foreign, w.table, w.procs[p].pc.snapshot)
  {
    var s := w.procs[p].pc.snapshot;
    PublishedByOwner(w, p);
    assert Equipped(w.table, w.procs[p].pc);
    forall d | d in w.table && d !in w.foreign ensures Wants(s, d).Some? {
      assert Covers(w.file.value.snapshot, d, w.table[d]);
    }
    forall d | Wants(s, d).Some? ensures Has(w.table, d, Wants(s, d).value) {
    }
  }

  // ----- a helper that is left to run

  function Commands(p: nat, n: nat): seq<(nat, Action)> { seq(n, _ => (p, Install(true))) }

  lemma {:induction false} InstallToTheEnd(w: World, p: nat, s: Snapshot, todo: seq<Command>)
    requires p in w.procs && w.procs[p].pc == Installing(s, todo) && w.lock.None?
    requires w.file.Some? && w.file.value.attempt == w.procs[p].attempt
    ensures Execute(w, Commands(p, |todo| + 1)) ==
            Some(Move(Update(w.(table := ApplyAll(w.table, todo)), w.procs[p].attempt, s), p, Installed(s)))
    decreases |todo|
  {
    var steps := Commands(p, |todo| + 1);
    assert steps[1..] == Commands(p, |todo|);
    if todo == [] {
      assert Execute(InstalledNext(w, p, true), steps[1..]) == Some(InstalledNext(w, p, true));
      assert w.(table := ApplyAll(w.table, todo)) == w;
    } else {
      var w1 := Move(w.(table := Apply(w.table, todo[0])), p, Installing(s, todo[1..]));
      assert Step(w, p, Install(true)) == Some(w1);
      InstallToTheEnd(w1, p, s, todo[1..]);
      MovedTwice(w, p, Apply(w.table, todo[0]), ApplyAll(w.table, todo), s, todo[1..]);
    }
  }

  lemma MovedTwice(w: World, p: nat, before: Table, table: Table, s: Snapshot, todo: seq<Command>)
    requires p in w.procs
    ensures var w1 := Move(w.(table := before), p, Installing(s, todo));
            Move(Update(w1.(table := table), w.procs[p].attempt, s), p, Installed(s)) ==
            Move(Update(w.(table := table), w.procs[p].attempt, s), p, Installed(s))
  {
    var w1 := Move(w.(table := before), p, Installing(s, todo));
    assert Move(Update(w1.(table := table), w.procs[p].attempt, s), p, Installed(s)).procs ==
           Move(Update(w.(table := table), w.procs[p].attempt, s), p, Installed(s)).procs;
  }

  function StartSteps(p: nat, iface: string, u: Underlay, addresses: nat): seq<(nat, Action)> {
    [(p, Acquire(Some(iface))), (p, Validate(Some(u))), (p, Bringup(addresses))]
    + Commands(p, addresses + 4 + |u.exclusions|) + [(p, Attach(true))]
  }

  lemma {:induction false} InstallationsLength(s: Snapshot, hosts: seq<string>)
    ensures |Installations(s, hosts)| == |hosts|
  {
    if hosts != [] {
      InstallationsLength(s, hosts[1..]);
    }
  }

  lemma BeginsInstalling(w: World, p: nat, iface: string, u: Underlay, addresses: nat)
    requires p in w.procs && w.procs[p].pc == Prepared && w.lock.None? && NoClash(w.foreign, u.exclusions)
    requires w.file.Some? && w.file.value.attempt == w.procs[p].attempt
    requires iface != "" && u.device != "" && u.exclusions != [] && addresses > 0
    ensures var s := Snapshot(iface, u.device, u.gateway, u.exclusions);
            var w' := w.(file := Some(w.file.value.(snapshot := s)),
                         procs := w.procs[p := w.procs[p].(pc := Installing(s, BringupCommands(s, addresses)))]);
            Execute(w, [(p, Acquire(Some(iface))), (p, Validate(Some(u))), (p, Bringup(addresses))]) == Some(w')
  {
    var s := Snapshot(iface, u.device, u.gateway, u.exclusions);
    var steps := [(p, Acquire(Some(iface))), (p, Validate(Some(u))), (p, Bringup(addresses))];
    var s0 := Snapshot(iface, "", "", []);
    var w1 := w.(file := Some(w.file.value.(snapshot := s0)), procs := w.procs[p := w.procs[p].(pc := Acquired(s0))]);
    var w2 := w.(file := Some(w.file.value.(snapshot := s)), procs := w.procs[p := w.procs[p].(pc := Validated(s))]);
    var w3 := w2.(procs := w.procs[p := w.procs[p].(pc := Installing(s, BringupCommands(s, addresses)))]);
    assert Step(w, p, Acquire(Some(iface))) == Some(w1);
    Validates(w, p, s0, u, s);
    BringsUp(w2, p, s, addresses, w3);
    OneStep(w2, p, Bringup(addresses));
    assert steps[1..] == [(p, Validate(Some(u))), (p, Bringup(addresses))];
    assert steps[1..][1..] == [(p, Bringup(addresses))];
    assert Execute(w1, steps[1..]) == Execute(w2, steps[1..][1..]);
  }

  lemma Validates(w: World, p: nat, s0: Snapshot, u: Underlay, s: Snapshot)
    requires p in w.procs && w.lock.None? && NoClash(w.foreign, u.exclusions) && w.file.Some? && w.file.value.attempt == w.procs[p].attempt
    requires s0.iface != "" && u.device != "" && u.exclusions != [] && s == Snapshot(s0.iface, u.device, u.gateway, u.exclusions)
    ensures var w1 := w.(file := Some(w.file.value.(snapshot := s0)), procs := w.procs[p := w.procs[p].(pc := Acquired(s0))]);
            Step(w1, p, Validate(Some(u))) ==
            Some(w.(file := Some(w.file.value.(snapshot := s)), procs := w.procs[p := w.procs[p].(pc := Validated(s))]))
  {
    var w1 := w.(file := Some(w.file.value.(snapshot := s0)), procs := w.procs[p := w.procs[p].(pc := Acquired(s0))]);
    assert Step(w1, p, Validate(Some(u))).value.procs == w.procs[p := w.procs[p].(pc := Validated(s))];
  }

  lemma BringsUp(w: World, p: nat, s: Snapshot, addresses: nat, w': World)
    requires p in w.procs && w.procs[p].pc == Validated(s) && s.iface != "" && addresses > 0
    requires w' == w.(procs := w'.procs) && w'.procs.Keys == w.procs.Keys
    requires forall q :: q in w.procs ==>
               w'.procs[q] == if q == p then w.procs[p].(pc := Installing(s, BringupCommands(s, addresses))) else w.procs[q]
    ensures Step(w, p, Bringup(addresses)) == Some(w')
  {
    assert Step(w, p, Bringup(addresses)).value.procs == w'.procs;
  }

  /** A helper that owns its record and is left to run, and finds all it needs, ends up serving with its routes. */
  lemma StartReachesServing(w: World, p: nat, iface: string, u: Underlay, addresses: nat)
    requires p in w.procs && w.procs[p].pc == Prepared && w.lock.None? && NoClash(w.foreign, u.exclusions)
    requires w.file.Some? && w.file.value.attempt == w.procs[p].attempt
    requires iface != "" && u.device != "" && u.exclusions != [] && addresses > 0
    ensures var w' := Execute(w, StartSteps(p, iface, u, addresses));
            && w'.Some? && p in w'.value.procs
            && w'.value.procs[p].pc == Serving(Snapshot(iface, u.device, u.gateway, u.exclusions))
  {
    var s := Snapshot(iface, u.device, u.gateway, u.exclusions);
    var all := BringupCommands(s, addresses);
    BeginsInstalling(w, p, iface, u, addresses);
    var w1 := w.(file := Some(w.file.value.(snapshot := s)), procs := w.procs[p := w.procs[p].(pc := Installing(s, all))]);
    InstallationsLength(s, s.exclusions);
    ServesAfterInstalling(w1, p, s, all);
    var first := [(p, Acquire(Some(iface))), (p, Validate(Some(u))), (p, Bringup(addresses))];
    ExecuteConcat(w, first, Commands(p, |all| + 1) + [(p, Attach(true))]);
    assert first + (Commands(p, |all| + 1) + [(p, Attach(true))]) == StartSteps(p, iface, u, addresses);
  }

  lemma ServesAfterInstalling(w: World, p: nat, s: Snapshot, todo: seq<Command>)
    requires p in w.procs && w.procs[p].pc == Installing(s, todo) && w.lock.None?
    requires w.file.Some? && w.file.value.attempt == w.procs[p].attempt
    ensures var w' := Execute(w, Commands(p, |todo| + 1) + [(p, Attach(true))]);
            w'.Some? && p in w'.value.procs && w'.value.procs[p].pc == Serving(s)
  {
    var w2 := Move(Update(w.(table := ApplyAll(w.table, todo)), w.procs[p].attempt, s), p, Installed(s));
    InstallToTheEnd(w, p, s, todo);
    AttachEnds(w2, p, s);
    ExecuteConcat(w, Commands(p, |todo| + 1), [(p, Attach(true))]);
  }

  lemma AttachEnds(w: World, p: nat, s: Snapshot)
    requires p in w.procs && w.procs[p].pc == Installed(s) && w.lock.None?
    requires w.file.Some? && w.file.value.attempt == w.procs[p].attempt
    ensures Execute(w, [(p, Attach(true))]) == Some(Attached(w, p, true))
    ensures p in Attached(w, p, true).procs && Attached(w, p, true).procs[p].pc == Serving(s)
  {
    OneStep(w, p, Attach(true));
  }

  // ----- a helper that fails or leaves

  /** What makes an owner give up, or leave. */
  predicate GivesUp(w: World, p: nat, a: Action)
    requires p in w.procs
  {
    match a
    case Acquire(iface) => iface.None?
    case Validate(u) => u.None? || u.value.device == "" || u.value.exclusions == []
    case Bringup(addresses) => addresses == 0
    case Install(ok) => !ok && w.procs[p].pc.Installing? && w.procs[p].pc.todo != []
    case Attach(ok) => !ok
    case Shutdown => true
    case _ => false
  }

  lemma GivingUpTurnsBack(w: World, p: nat, a: Action)
    requires Step(w, p, a).Some? && p in w.procs && GivesUp(w, p, a)
    ensures var w' := Step(w, p, a).value;
            && p in w'.procs && (w'.procs[p].pc.Teardown? || w'.procs[p].pc.Releasing?) && w'.lock == w.lock
            && w'.procs.Keys == w.procs.Keys && w'.foreign == w.foreign
  {
  }

  function TearDowns(p: nat, n: nat): seq<(nat, Action)> { seq(n, _ => (p, TearDown)) }

  /** What is left to do for an owner on its way out. */
  function LeaveSteps(p: nat, pc: Pc): seq<(nat, Action)> {
    (if pc.Teardown? then TearDowns(p, |pc.todo| + 1) else []) + [(p, Release)]
  }

  lemma {:induction false} TearDownToTheEnd(w: World, p: nat, todo: seq<Command>)
    requires p in w.procs && w.procs[p].pc == Teardown(todo)
    ensures Execute(w, TearDowns(p, |todo| + 1)) == Some(Move(w.(table := ApplyAll(w.table, todo)), p, Releasing))
    decreases |todo|
  {
    var steps := TearDowns(p, |todo| + 1);
    assert steps[1..] == TearDowns(p, |todo|);
    if todo == [] {
      assert Execute(TornDown(w, p), steps[1..]) == Some(TornDown(w, p));
      assert w.(table := w.table) == w;
    } else {
      var w1 := Move(w.(table := Apply(w.table, todo[0])), p, Teardown(todo[1..]));
      assert Step(w, p, TearDown) == Some(w1);
      TearDownToTheEnd(w1, p, todo[1..]);
      assert Move(w1.(table := ApplyAll(w.table, todo)), p, Releasing).procs == Move(w, p, Releasing).procs;
    }
  }

  lemma ReleaseLeavesNothing(w: World, p: nat)
    requires p in w.procs && w.procs[p].pc == Releasing && w.lock.None? && ForeignOk(w) && Clean(w)
    requires w.file.Some? && w.file.value.attempt == w.procs[p].attempt
    ensures var w' := Execute(w, [(p, Release)]);
            w'.Some? && w'.value.table == w.foreign && w'.value.file.None? && !Alive(w'.value.procs, p)
  {
    OneStep(w, p, Release);
    CleanIsForeign(w);
  }

  lemma LeavingLeavesNothing(w: World, p: nat)
    requires Inv(w) && p in w.procs && (w.procs[p].pc.Teardown? || w.procs[p].pc.Releasing?) && w.lock.None?
    ensures var w' := Execute(w, LeaveSteps(p, w.procs[p].pc));
            w'.Some? && w'.value.table == w.foreign && w'.value.file.None? && !Alive(w'.value.procs, p)
  {
    assert ProcessOk(w, p);
    if w.procs[p].pc.Releasing? {
      ReleaseLeavesNothing(w, p);
      assert LeaveSteps(p, w.procs[p].pc) == [(p, Release)];
    } else {
      var todo := w.procs[p].pc.todo;
      var w1 := Move(w.(table := ApplyAll(w.table, todo)), p, Releasing);
      TearDownToTheEnd(w, p, todo);
      FinishAll(w, todo, w1);
      ReleaseLeavesNothing(w1, p);
      ExecuteConcat(w, TearDowns(p, |todo| + 1), [(p, Release)]);
    }
  }

  /** In every run: when a step of an owner fails, or it is told to leave, and it is left to run, all its routes and its
      record are gone in the end. */
  lemma GivingUpLeavesNothing(foreign: Table, steps: seq<(nat, Action)>, p: nat, a: Action)
    requires LowerHalf !in foreign && UpperHalf !in foreign && Execute(Boot(foreign), steps).Some?
    requires var w := Execute(Boot(foreign), steps).value;
             AttemptsAreUnique(w.procs) && p in w.procs && Step(w, p, a).Some? && GivesUp(w, p, a) && w.lock.None?
    ensures var w1 := Step(Execute(Boot(foreign), steps).value, p, a).value;
            && p in w1.procs
            && var w' := Execute(w1, LeaveSteps(p, w1.procs[p].pc));
               w'.Some? && w'.value.table == foreign && w'.value.file.None? && !Alive(w'.value.procs, p)
  {
    var w := Execute(Boot(foreign), steps).value;
    BootOk(foreign);
    RunKeeps(Boot(foreign), steps);
    RunGrows(Boot(foreign), steps);
    StepKeeps(w, p, a);
    GivingUpTurnsBack(w, p, a);
    LeavingLeavesNothing(Step(w, p, a).value, p);
  }
}
