/** The Linux TUN helper as it runs: the host it changes, its state file, and one attempt from start to clean-up. */
module TunHost {
  import opened Wrappers
  import opened TunCommands
  import opened TunHelper

  lemma {:induction false} AppliedInTwo(t: Table, a: seq<Command>, b: seq<Command>)
    ensures ApplyAll(t, a + b) == ApplyAll(ApplyAll(t, a), b)
    decreases |a|
  {
    if a == [] {
      assert a + b == b;
    } else {
      assert (a + b)[1..] == a[1..] + b;
      AppliedInTwo(Apply(t, a[0]), a[1..], b);
    }
  }

  lemma AppliedOneMore(t: Table, a: seq<Command>, c: Command)
    ensures ApplyAll(t, a + [c]) == Apply(ApplyAll(t, a), c)
  {
    AppliedInTwo(t, a, [c]);
    assert ApplyAll(Apply(ApplyAll(t, a), c), [c][1..]) == Apply(ApplyAll(t, a), c);
  }

  lemma AppliedNext(t: Table, all: seq<Command>, done: nat)
    requires done < |all|
    ensures ApplyAll(t, all[..done + 1]) == Apply(ApplyAll(t, all[..done]), all[done])
  {
    AppliedOneMore(t, all[..done], all[done]);
    assert all[..done + 1] == all[..done] + [all[done]];
  }

  lemma {:induction false} DeletionsInTwo(s: Snapshot, hosts: seq<string>, i: nat)
    requires i < |hosts|
    ensures Deletions(s, hosts[..i + 1]) == Deletions(s, hosts[..i]) + [Delete(Host(hosts[i]), s.gateway, s.device)]
  {
    if i > 0 {
      assert hosts[..i + 1][1..] == hosts[1..][..i] && hosts[..i][1..] == hosts[1..][..i - 1];
      DeletionsInTwo(s, hosts[1..], i - 1);
    } else {
      assert hosts[..1][1..] == [] && hosts[..0] == [];
    }
  }

  lemma {:induction false} InstallationsAt(s: Snapshot, hosts: seq<string>, i: nat)
    requires i < |hosts|
    ensures |Installations(s, hosts)| == |hosts| && Installations(s, hosts)[i] == Replace(Host(hosts[i]), s.gateway, s.device)
  {
    if i > 0 {
      InstallationsAt(s, hosts[1..], i - 1);
    } else if |hosts| > 1 {
      InstallationsAt(s, hosts[1..], 0);
    } else {
      assert Installations(s, hosts[1..]) == [];
    }
  }

  /** Where the commands of a bring-up stand: the link and each address, the two halves, the exclusions. */
  lemma CommandsInThree(s: Snapshot, addresses: nat)
    ensures var (all, n) := (BringupCommands(s, addresses), |s.exclusions|);
            && |all| == addresses + 3 + n
            && forall i :: 0 <= i < n ==> all[addresses + 3 + i] == Replace(Host(s.exclusions[i]), s.gateway, s.device)
  {
    if s.exclusions != [] {
      InstallationsAt(s, s.exclusions, 0);
    }
    forall i | 0 <= i < |s.exclusions|
      ensures BringupCommands(s, addresses)[addresses + 3 + i] == Replace(Host(s.exclusions[i]), s.gateway, s.device)
    {
      InstallationsAt(s, s.exclusions, i);
    }
  }

  lemma {:induction false} InstallationsApplied(t: Table, s: Snapshot, hosts: seq<string>)
    ensures var t' := ApplyAll(t, Installations(s, hosts));
            forall d: Destination :: if d.Host? && d.address in hosts then d in t' && t'[d] == Route(s.gateway, s.device)
                        else (d in t' <==> d in t) && (d in t' ==> t'[d] == t[d])
    decreases |hosts|
  {
    if hosts != [] {
      var c := Replace(Host(hosts[0]), s.gateway, s.device);
      assert Installations(s, hosts)[1..] == Installations(s, hosts[1..]);
      InstallationsApplied(Apply(t, c), s, hosts[1..]);
    }
  }

  lemma {:induction false} OthersApplied(t: Table, n: nat)
    ensures ApplyAll(t, seq(n, _ => Other)) == t
  {
    if n > 0 {
      assert seq(n, _ => Other)[1..] == seq(n - 1, _ => Other);
      OthersApplied(t, n - 1);
    }
  }

  /** A bring-up that runs to its end installs both halves and every exclusion, and touches nothing else. */
  lemma BringupIsComplete(t: Table, s: Snapshot, addresses: nat)
    ensures InstalledOver(t, ApplyAll(t, BringupCommands(s, addresses)), s)
  {
    var others, halves := seq(addresses + 1, _ => Other), [Replace(LowerHalf, "", s.iface), Replace(UpperHalf, "", s.iface)];
    AppliedInTwo(t, others + halves, Installations(s, s.exclusions));
    AppliedInTwo(t, others, halves);
    OthersApplied(t, addresses + 1);
    AppliedOneMore(t, [], halves[0]);
    AppliedOneMore(t, [halves[0]], halves[1]);
    assert [] + [halves[0]] == [halves[0]] && [halves[0]] + [halves[1]] == halves;
    InstallationsApplied(Apply(Apply(t, halves[0]), halves[1]), s, s.exclusions);
  }

  // ----- undoing a bring-up

  /** t' is t plus routes that s covers, all of them on destinations that t does not have. */
  ghost predicate Extends(t: Table, t': Table, s: Snapshot) {
    && (forall d :: d in t ==> d in t' && t'[d] == t[d])
    && (forall d :: d in t' && d !in t ==> Covers(s, d, t'[d]))
  }

  lemma {:induction false} InstallingExtends(t: Table, t1: Table, s: Snapshot, cs: seq<Command>)
    requires Extends(t, t1, s)
    requires forall c :: c in cs ==> !c.Delete? && (c.Replace? ==> c.dest !in t && Covers(s, c.dest, Route(c.via, c.dev)))
    ensures Extends(t, ApplyAll(t1, cs), s)
    decreases |cs|
  {
    if cs != [] {
      assert cs[0] in cs;
      InstallingExtends(t, Apply(t1, cs[0]), s, cs[1..]);
    }
  }

  lemma SweepUndoes(t: Table, t': Table, s: Snapshot)
    requires NoClash(t, s.exclusions) && Extends(t, t', s)
    ensures ApplyAll(t', SweepCommands(s)) == t
  {
    SweepRemoves(s, LowerHalf, Route("", ""));
    AppliedDeletions(t', SweepCommands(s));
    forall d | d in t' ensures Removes(SweepCommands(s), d, t'[d]) <==> d !in t {
      SweepRemoves(s, d, t'[d]);
    }
  }

  lemma BringupExtends(t: Table, s: Snapshot, addresses: nat, k: nat)
    requires NoClash(t, s.exclusions) && s.iface != "" && k <= |BringupCommands(s, addresses)|
    ensures Extends(t, ApplyAll(t, BringupCommands(s, addresses)[..k]), s)
  {
    var cs := BringupCommands(s, addresses);
    BringupIsCovered(s, addresses);
    InstallationsCovered(s, s.exclusions);
    forall c | c in cs[..k] ensures !c.Delete? && (c.Replace? ==> c.dest !in t && Covers(s, c.dest, Route(c.via, c.dev))) {
      assert c in cs;
    }
    InstallingExtends(t, t, s, cs[..k]);
  }

  /** Wherever a bring-up stops, the cleanup for its snapshot restores the routes there were before. */
  lemma BringupIsUndone(t: Table, s: Snapshot, addresses: nat, k: nat)
    requires NoClash(t, s.exclusions) && s.iface != "" && k <= |BringupCommands(s, addresses)|
    ensures ApplyAll(ApplyAll(t, BringupCommands(s, addresses)[..k]), SweepCommands(s)) == t
  {
    BringupExtends(t, s, addresses, k);
    SweepUndoes(t, ApplyAll(t, BringupCommands(s, addresses)[..k]), s);
  }

  // ----- the host

  class Host {
    var table: Table

    constructor (table: Table)
      ensures this.table == table
    {
      this.table := table;
    }

    method RunIP(c: Command)
      modifies this
      ensures table == Apply(old(table), c)
    {
      match c
      case Delete(dest, via, dev) =>
        if dest in table && Hits(table[dest], via, dev) {
          table := table - {dest};
        }
      case Replace(dest, via, dev) => table := table[dest := Route(via, dev)];
      case Other =>
    }

    /** Every deletion is tried, whatever became of the others. */
    method CleanupNativeHostState(s: Snapshot)
      modifies this
      ensures table == ApplyAll(old(table), SweepCommands(s))
    {
      ghost var t := table;
      ghost var done: seq<Command> := [];
      var halves := [LowerHalf, UpperHalf];
      for i := 0 to 2
        invariant done == [Delete(LowerHalf, "", Interface(s)), Delete(UpperHalf, "", Interface(s))][..i]
        invariant table == ApplyAll(t, done)
      {
        RunIP(Delete(halves[i], "", Interface(s)));
        AppliedOneMore(t, done, Delete(halves[i], "", Interface(s)));
        done := done + [Delete(halves[i], "", Interface(s))];
      }
      ghost var both := done;
      for i := 0 to |s.exclusions|
        invariant done == both + Deletions(s, s.exclusions[..i])
        invariant table == ApplyAll(t, done)
      {
        RunIP(Delete(Host(s.exclusions[i]), s.gateway, s.device));
        AppliedOneMore(t, done, Delete(Host(s.exclusions[i]), s.gateway, s.device));
        DeletionsInTwo(s, s.exclusions, i);
        done := done + [Delete(Host(s.exclusions[i]), s.gateway, s.device)];
      }
      assert s.exclusions[..|s.exclusions|] == s.exclusions;
      RunIP(Other);
      AppliedOneMore(t, done, Other);
      RunIP(Other);
      AppliedOneMore(t, done + [Other], Other);
      assert done + [Other] + [Other] == SweepCommands(s);
    }

    /** Runs the commands of a bring-up until one fails; `failing` is the position of the first that would. */
    method BringupHost(s: Snapshot, addresses: nat, failing: nat) returns (ok: bool)
      modifies this
      ensures ok <==> s.iface != "" && addresses > 0 && failing >= |BringupCommands(s, addresses)|
      ensures s.iface == "" || addresses == 0 ==> table == old(table)
      ensures ok <==> s.iface != "" && addresses > 0 && failing >= addresses + 3 + |s.exclusions|
      ensures ok ==> table == ApplyAll(old(table), BringupCommands(s, addresses)) && InstalledOver(old(table), table, s)
      ensures !ok && s.iface != "" && addresses > 0 ==>
                failing < |BringupCommands(s, addresses)| &&
                table == ApplyAll(old(table), BringupCommands(s, addresses)[..failing])
    {
      if s.iface == "" || addresses == 0 {
        return false;
      }
      ghost var t := table;
      ghost var all := BringupCommands(s, addresses);
      ghost var done: nat := 0;
      CommandsInThree(s, addresses);
      // the link, then each address
      for i := 0 to addresses + 1
        invariant done == i <= failing && table == ApplyAll(t, all[..done])
      {
        if i == failing {
          return false;
        }
        RunIP(Other);
        AppliedNext(t, all, done);
        done := done + 1;
      }
      var halves := [LowerHalf, UpperHalf];
      for i := 0 to 2
        invariant done == addresses + 1 + i <= failing && table == ApplyAll(t, all[..done])
      {
        if addresses + 1 + i == failing {
          return false;
        }
        RunIP(Replace(halves[i], "", s.iface));
        AppliedNext(t, all, done);
        done := done + 1;
      }
      for i := 0 to |s.exclusions|
        invariant done == addresses + 3 + i <= failing && done <= |all| && table == ApplyAll(t, all[..done])
      {
        if addresses + 3 + i == failing {
          return false;
        }
        RunIP(Replace(Host(s.exclusions[i]), s.gateway, s.device));
        AppliedNext(t, all, done);
        done := done + 1;
      }
      assert all[..done] == all;
      BringupIsComplete(t, s, addresses);
      return true;
    }
  }

  // ----- the state file

  datatype CleanupResult = Cleaned | Refused | CleanupFailed | Signalled(helper: Record)

  /** The state file under its lock. `procs` says who is alive; `fails` says whether a sweep reports an error. */
  class StateManager {
    var file: Option<Record>

    constructor ()
      ensures file == None
    {
      file := None;
    }

    /** Refuses to start beside a live helper; otherwise cleans up after a dead one and claims the file. A cleanup
        that fails keeps the old record. */
    method PrepareStart(host: Host, procs: Processes, pid: nat, attempt: Attempt, fails: bool) returns (ok: bool)
      modifies this, host
      ensures ok <==> old(file).None? || (!Alive(procs, old(file).value.pid) && !fails)
      ensures file == if ok then Some(Record(attempt, pid, DEFAULT_SNAPSHOT)) else old(file)
      ensures host.table == if old(file).Some? && !Alive(procs, old(file).value.pid)
                            then ApplyAll(old(host.table), SweepCommands(old(file).value.snapshot)) else old(host.table)
    {
      if file.Some? {
        if Alive(procs, file.value.pid) {
          return false;
        }
        host.CleanupNativeHostState(file.value.snapshot);
        if fails {
          return false;
        }
        file := None;
      }
      file := Some(Record(attempt, pid, DEFAULT_SNAPSHOT));
      return true;
    }

    method Update(attempt: Attempt, snapshot: Snapshot) returns (ok: bool)
      modifies this
      ensures ok <==> old(file).Some? && old(file).value.attempt == attempt
      ensures file == if ok then Some(Record(attempt, old(file).value.pid, Published(snapshot))) else old(file)
    {
      if file.None? || file.value.attempt != attempt {
        return false;
      }
      file := Some(file.value.(snapshot := Published(snapshot)));
      return true;
    }

    method RemoveIfAttempt(attempt: Attempt)
      modifies this
      ensures file == if old(file).Some? && old(file).value.attempt == attempt then None else old(file)
    {
      if file.Some? && file.value.attempt == attempt {
        file := None;
      }
    }

    /** A cleanup request never changes the file or the routes of a live helper other than the caller. */
    method Cleanup(host: Host, procs: Processes, pid: nat, attempt: Attempt, fails: bool) returns (r: CleanupResult)
      modifies this, host
      ensures old(file).Some? && Alive(procs, old(file).value.pid) && old(file).value.pid != pid ==>
                file == old(file) && host.table == old(host.table) &&
                r == if old(file).value.attempt == attempt then Signalled(old(file).value) else Refused
      ensures old(file).None? || !Alive(procs, old(file).value.pid) ==>
                r == (if fails then CleanupFailed else Cleaned) && file == (if fails then old(file) else None) &&
                host.table == ApplyAll(old(host.table), SweepCommands(if old(file).Some? then old(file).value.snapshot else DEFAULT_SNAPSHOT))
    {
      if file.None? {
        host.CleanupNativeHostState(DEFAULT_SNAPSHOT);
        return if fails then CleanupFailed else Cleaned;
      }
      if file.value.attempt != attempt {
        if Alive(procs, file.value.pid) {
          return Refused;
        }
      } else if Alive(procs, file.value.pid) && file.value.pid != pid {
        return Signalled(file.value);
      }
      host.CleanupNativeHostState(file.value.snapshot);
      if fails {
        return CleanupFailed;
      }
      file := None;
      return Cleaned;
    }
  }

  // ----- one attempt

  /** What the environment does to an attempt: the TUN device, the underlay, the first command that fails, and the
      runtime and its data-plane check. */
  datatype Outcomes = Outcomes(iface: Option<string>, underlay: Option<Underlay>, addresses: nat, failing: nat, attaches: bool)

  class NativeLifecycle {
    const host: Host
    const manager: StateManager
    const attempt: Attempt
    var state: Option<Snapshot>

    constructor (host: Host, manager: StateManager, attempt: Attempt)
      ensures this.host == host && this.manager == manager && this.attempt == attempt && state == None
    {
      this.host, this.manager, this.attempt, state := host, manager, attempt, None;
    }

    method AcquirePermission(iface: Option<string>) returns (ok: bool)
      requires state == None
      modifies this, manager
      ensures ok <==> iface.Some?
      ensures state == if ok then Some(Snapshot(iface.value, "", "", [])) else None
      ensures manager.file == if ok && old(manager.file).Some? && old(manager.file).value.attempt == attempt
                              then Some(Record(attempt, old(manager.file).value.pid, Published(state.value))) else old(manager.file)
    {
      if iface.None? {
        return false;
      }
      state := Some(Snapshot(iface.value, "", "", []));
      var _ := manager.Update(attempt, state.value);
      return true;
    }

    /** The exclusions reach the state file before bring-up installs any of them. */
    method ValidateRoutePolicy(underlay: Option<Underlay>) returns (ok: bool)
      requires state.Some?
      modifies this, manager
      ensures ok <==> underlay.Some? && underlay.value.device != "" && underlay.value.exclusions != []
      ensures ok ==> state == Some(Snapshot(old(state).value.iface, underlay.value.device, underlay.value.gateway, underlay.value.exclusions))
      ensures manager.file == if ok && old(manager.file).Some? && old(manager.file).value.attempt == attempt
                              then Some(Record(attempt, old(manager.file).value.pid, Published(state.value))) else old(manager.file)
      ensures !ok ==> state == old(state)
    {
      if underlay.None? || underlay.value.device == "" || underlay.value.exclusions == [] {
        return false;
      }
      var u := underlay.value;
      state := Some(state.value.(device := u.device, gateway := u.gateway, exclusions := u.exclusions));
      var _ := manager.Update(attempt, state.value);
      return true;
    }

    method Cleanup()
      modifies this, host
      ensures state == None
      ensures host.table == if old(state).Some? then ApplyAll(old(host.table), SweepCommands(old(state).value)) else old(host.table)
    {
      if state.Some? {
        host.CleanupNativeHostState(state.value);
        state := None;
      }
    }

    /** An attempt that owns the file either ends up serving, with both halves going through its device, every excluded
        host around it and all of that covered by the file, or fails and leaves the routes as they were, and no record of
        itself. It succeeds exactly if everything it needs is there and no command fails. */
    method Start(o: Outcomes) returns (ok: bool)
      requires state == None && manager.file.Some? && manager.file.value.attempt == attempt
      requires NoClash(host.table, if o.underlay.Some? then o.underlay.value.exclusions else [])
      modifies this, host, manager
      ensures ok <==> && o.iface.Some? && o.iface.value != "" && o.addresses > 0 && o.attaches
                      && o.underlay.Some? && o.underlay.value.device != "" && o.underlay.value.exclusions != []
                      && o.failing >= o.addresses + 3 + |o.underlay.value.exclusions|
      ensures !ok ==> host.table == old(host.table) && manager.file == None && state == None
      ensures ok ==>
                var u := o.underlay.value;
                state == Some(Snapshot(o.iface.value, u.device, u.gateway, u.exclusions)) && InstalledOver(old(host.table), host.table, state.value)
      ensures ok ==> state.Some? && manager.file == Some(Record(attempt, old(manager.file).value.pid, Published(state.value)))
      ensures ok ==> Extends(old(host.table), host.table, manager.file.value.snapshot)
      ensures ok ==> ApplyAll(host.table, SweepCommands(state.value)) == old(host.table)
    {
      ghost var t := host.table;
      ok := AcquirePermission(o.iface);
      if ok {
        ok := ValidateRoutePolicy(o.underlay);
        if ok {
          ok := host.BringupHost(state.value, o.addresses, o.failing);
          ghost var all := BringupCommands(state.value, o.addresses);
          if state.value.iface != "" && o.addresses > 0 {
            BringupExtends(t, state.value, o.addresses, if ok then |all| else o.failing);
            assert all[..|all|] == all;
          }
          if ok {
            var _ := manager.Update(attempt, state.value);
            var updated := manager.Update(attempt, state.value);
            ok := o.attaches && updated;
          }
        }
        SweepUndoes(t, host.table, state.value);
      }
      if !ok {
        Cleanup();
        manager.RemoveIfAttempt(attempt);
      }
    }

    /** Leaving takes the tunnel's routes and the record away. */
    method Shutdown()
      requires state.Some?
      modifies this, host, manager
      ensures host.table == ApplyAll(old(host.table), SweepCommands(old(state).value)) && state == None
      ensures manager.file == if old(manager.file).Some? && old(manager.file).value.attempt == attempt then None else old(manager.file)
    {
      Cleanup();
      manager.RemoveIfAttempt(attempt);
    }
  }
}
