/** Several helper processes of the Linux TUN helper, sharing a route table, a state file and a lock, each of which
    may die between any two of its commands. */
module TunHelper {
  import opened Wrappers
  import opened TunCommands

  datatype Attempt = Attempt(id: string, nonce: string)

  datatype Record = Record(attempt: Attempt, pid: nat, snapshot: Snapshot)

  /** Where a process is. A starting helper goes through Starting, maybe Sweeping and Writing, then Prepared,
      Acquired, Validated, Installing, Installed, Serving, Teardown, Releasing; a cleanup request through Starting
      and then Sweeping or Waiting. Ended processes are dead, whether they exited or crashed. */
  datatype Pc =
    | Starting
    | Sweeping(todo: seq<Command>, failed: bool)
    | Writing
    | Prepared
    | Acquired(snapshot: Snapshot)
    | Validated(snapshot: Snapshot)
    | Installing(snapshot: Snapshot, todo: seq<Command>)
    | Installed(snapshot: Snapshot)
    | Serving(snapshot: Snapshot)
    | Teardown(todo: seq<Command>)
    | Releasing
    | Waiting(waited: Record)
    | Ended

  datatype Process = Process(helper: bool, attempt: Attempt, pc: Pc)

  type Processes = map<nat, Process>

  /** `foreign` are the routes that are not the tunnel's; it never changes. */
  datatype World = World(table: Table, foreign: Table, file: Option<Record>, lock: Option<nat>, procs: Processes)

  predicate Alive(procs: Processes, pid: nat) { pid in procs && !procs[pid].pc.Ended? }

  function Boot(foreign: Table): World { World(foreign, foreign, None, None, map[]) }

  const DEFAULT_SNAPSHOT := Snapshot(DEFAULT_INTERFACE, "", "", [])

  function Published(s: Snapshot): Snapshot { s.(iface := Interface(s)) }

  function Move(w: World, pid: nat, pc: Pc): World
    requires pid in w.procs
  {
    w.(procs := w.procs[pid := w.procs[pid].(pc := pc)])
  }

  /** A helper's update of the state file; it silently fails when the file is not its own. */
  function Update(w: World, a: Attempt, s: Snapshot): World {
    if w.file.Some? && w.file.value.attempt == a then w.(file := Some(w.file.value.(snapshot := Published(s)))) else w
  }

  function OwnRecord(w: World, pid: nat): Record
    requires pid in w.procs
  {
    Record(w.procs[pid].attempt, pid, DEFAULT_SNAPSHOT)
  }

  /** The default route a helper found, and the hosts it must keep out of the tunnel. */
  datatype Underlay = Underlay(device: string, gateway: string, exclusions: seq<string>)

  datatype Action =
    | Launch(helper: bool, attempt: Attempt)
    | Begin
    | Sweep(ok: bool)
    | Write
    | Acquire(iface: Option<string>)
    | Validate(underlay: Option<Underlay>)
    | Bringup(addresses: nat)
    | Install(ok: bool)
    | Attach(ok: bool)
    | Shutdown
    | TearDown
    | Release
    | Poll(ok: bool)
    | Crash

  // ----- the steps, one command or one locked section each

  /** The locked section that starts a helper or a cleanup request. */
  function Begun(w: World, pid: nat): World
    requires pid in w.procs
  {
    var me := w.procs[pid];
    if me.helper then
      if w.file.None? then Move(w.(file := Some(OwnRecord(w, pid))), pid, Prepared)
      else if Alive(w.procs, w.file.value.pid) then Move(w, pid, Ended)
      else Move(w.(lock := Some(pid)), pid, Sweeping(SweepCommands(w.file.value.snapshot), false))
    else if w.file.None? then Move(w.(lock := Some(pid)), pid, Sweeping(SweepCommands(DEFAULT_SNAPSHOT), false))
    else if !Alive(w.procs, w.file.value.pid) then
      Move(w.(lock := Some(pid)), pid, Sweeping(SweepCommands(w.file.value.snapshot), false))
    else if w.file.value.attempt != me.attempt then Move(w, pid, Ended)
    else if w.file.value.pid != pid then Move(w, pid, Waiting(w.file.value))
    else Move(w.(lock := Some(pid)), pid, Sweeping(SweepCommands(w.file.value.snapshot), false))
  }

  /** One command of a sweep under the lock, or its end. A sweep that failed keeps the state file. */
  function Swept(w: World, pid: nat, ok: bool): World
    requires pid in w.procs && w.procs[pid].pc.Sweeping?
  {
    var pc := w.procs[pid].pc;
    if pc.todo != [] then
      Move(w.(table := Apply(w.table, pc.todo[0])), pid, Sweeping(pc.todo[1..], pc.failed || (pc.todo[0].Other? && !ok)))
    else if pc.failed then Move(w.(lock := None), pid, Ended)
    else if w.procs[pid].helper then Move(w.(file := None), pid, Writing)
    else Move(w.(file := None, lock := None), pid, Ended)
  }

  function AcquiredTun(w: World, pid: nat, iface: Option<string>): World
    requires pid in w.procs
  {
    if iface.None? then Move(w, pid, Releasing) else
    var s := Snapshot(iface.value, "", "", []);
    Move(Update(w, w.procs[pid].attempt, s), pid, Acquired(s))
  }

  /** The exclusions are published before any of them is installed. */
  function ValidatedRoutes(w: World, pid: nat, underlay: Option<Underlay>): World
    requires pid in w.procs && w.procs[pid].pc.Acquired?
  {
    var s := w.procs[pid].pc.snapshot;
    if underlay.None? || underlay.value.device == "" || underlay.value.exclusions == [] then
      Move(w, pid, Teardown(SweepCommands(s)))
    else
      var s1 := s.(device := underlay.value.device, gateway := underlay.value.gateway, exclusions := underlay.value.exclusions);
      Move(Update(w, w.procs[pid].attempt, s1), pid, Validated(s1))
  }

  function BroughtUp(w: World, pid: nat, addresses: nat): World
    requires pid in w.procs && w.procs[pid].pc.Validated?
  {
    var s := w.procs[pid].pc.snapshot;
    Move(w, pid, if s.iface == "" || addresses == 0 then Teardown(SweepCommands(s))
                 else Installing(s, BringupCommands(s, addresses)))
  }

  function InstalledNext(w: World, pid: nat, ok: bool): World
    requires pid in w.procs && w.procs[pid].pc.Installing?
  {
    var (s, todo) := (w.procs[pid].pc.snapshot, w.procs[pid].pc.todo);
    if todo == [] then Move(Update(w, w.procs[pid].attempt, s), pid, Installed(s))
    else if ok then Move(w.(table := Apply(w.table, todo[0])), pid, Installing(s, todo[1..]))
    else Move(w, pid, Teardown(SweepCommands(s)))
  }

  /** Attaching the runtime, checking the data plane and the last update; any of them may fail. */
  function Attached(w: World, pid: nat, ok: bool): World
    requires pid in w.procs && w.procs[pid].pc.Installed?
  {
    var (s, a) := (w.procs[pid].pc.snapshot, w.procs[pid].attempt);
    if ok && w.file.Some? && w.file.value.attempt == a then Move(Update(w, a, s), pid, Serving(s))
    else Move(w, pid, Teardown(SweepCommands(s)))
  }

  function TornDown(w: World, pid: nat): World
    requires pid in w.procs && w.procs[pid].pc.Teardown?
  {
    var todo := w.procs[pid].pc.todo;
    if todo == [] then Move(w, pid, Releasing)
    else Move(w.(table := Apply(w.table, todo[0])), pid, Teardown(todo[1..]))
  }

  function Released(w: World, pid: nat): World
    requires pid in w.procs
  {
    Move(if w.file.Some? && w.file.value.attempt == w.procs[pid].attempt then w.(file := None) else w, pid, Ended)
  }

  /** A cleanup request that waits for a helper to leave. It asks whether the process it signalled is alive, not the
      one the state file names now. */
  function Polled(w: World, pid: nat, ok: bool): World
    requires pid in w.procs && w.procs[pid].pc.Waiting?
  {
    var waited := w.procs[pid].pc.waited;
    if w.file.None? || w.file.value.attempt != waited.attempt then Move(w, pid, Ended)
    else if Alive(w.procs, waited.pid) then w
    else Move(w.(table := ApplyAll(w.table, SweepCommands(w.file.value.snapshot)), file := if ok then None else w.file), pid, Ended)
  }

  /** The tunnel's own destinations never clash with foreign routes. */
  predicate NoClash(foreign: Table, hosts: seq<string>) {
    LowerHalf !in foreign && UpperHalf !in foreign && forall h :: h in hosts ==> Host(h) !in foreign
  }

  /** Whether a process can take a step; locked sections wait until nobody holds the lock. */
  predicate Enabled(w: World, pid: nat, a: Action) {
    if a.Launch? then pid !in w.procs else
    pid in w.procs &&
    var pc := w.procs[pid].pc;
    match a
    case Launch(_, _) => false
    case Begin => pc.Starting? && w.lock.None?
    case Sweep(_) => pc.Sweeping?
    case Write => pc.Writing?
    case Acquire(_) => pc.Prepared? && w.lock.None?
    case Validate(u) => pc.Acquired? && w.lock.None? && (u.Some? ==> NoClash(w.foreign, u.value.exclusions))
    case Bringup(_) => pc.Validated?
    case Install(_) => pc.Installing? && (pc.todo == [] ==> w.lock.None?)
    case Attach(_) => pc.Installed? && w.lock.None?
    case Shutdown => pc.Serving?
    case TearDown => pc.Teardown?
    case Release => pc.Releasing? && w.lock.None?
    case Poll(_) => pc.Waiting? && w.lock.None?
    case Crash => !pc.Ended?
  }

  function Step(w: World, pid: nat, a: Action): Option<World> {
    if !Enabled(w, pid, a) then None else
    Some(match a
         case Launch(helper, attempt) => w.(procs := w.procs[pid := Process(helper, attempt, Starting)])
         case Begin => Begun(w, pid)
         case Sweep(ok) => Swept(w, pid, ok)
         case Write => Move(w.(file := Some(OwnRecord(w, pid)), lock := None), pid, Prepared)
         case Acquire(iface) => AcquiredTun(w, pid, iface)
         case Validate(underlay) => ValidatedRoutes(w, pid, underlay)
         case Bringup(addresses) => BroughtUp(w, pid, addresses)
         case Install(ok) => InstalledNext(w, pid, ok)
         case Attach(ok) => Attached(w, pid, ok)
         case Shutdown => Move(w, pid, Teardown(SweepCommands(w.procs[pid].pc.snapshot)))
         case TearDown => TornDown(w, pid)
         case Release => Released(w, pid)
         case Poll(ok) => Polled(w, pid, ok)
         case Crash => Move(w.(lock := if w.lock == Some(pid) then None else w.lock), pid, Ended))
  }

  function Execute(w: World, steps: seq<(nat, Action)>): Option<World>
    decreases |steps|
  {
    if steps == [] then Some(w) else
    match Step(w, steps[0].0, steps[0].1)
    case None => None
    case Some(w') => Execute(w', steps[1..])
  }

  /** No two helpers of a run were started for the same attempt. */
  ghost predicate AttemptsAreUnique(procs: Processes) {
    forall p, q :: p in procs && q in procs && procs[p].helper && procs[q].helper && procs[p].attempt == procs[q].attempt ==> p == q
  }

  // ----- invariants

  ghost predicate ForeignOk(w: World) {
    forall d :: d in w.foreign ==> d in w.table && w.table[d] == w.foreign[d]
  }

  /** Only foreign routes are installed. */
  ghost predicate Clean(w: World) { forall d :: d in w.table ==> d in w.foreign }

  ghost predicate SafeSnapshot(w: World, s: Snapshot) { NoClash(w.foreign, s.exclusions) }

  /** The file names a helper that owns the tunnel if it is alive, and covers every route that is not foreign. */
  ghost predicate RecordOk(w: World, r: Record) {
    && r.pid in w.procs && w.procs[r.pid].helper && w.procs[r.pid].attempt == r.attempt
    && (Alive(w.procs, r.pid) ==> Owns(w.procs[r.pid].pc))
    && SafeSnapshot(w, r.snapshot)
    && forall d :: d in w.table && d !in w.foreign ==> Covers(r.snapshot, d, w.table[d])
  }

  ghost predicate FileOk(w: World) { if w.file.None? then Clean(w) else RecordOk(w, w.file.value) }

  /** These commands take away everything that is not foreign, and nothing that is. */
  ghost predicate Finishes(w: World, todo: seq<Command>) {
    && OnlyRemoves(todo)
    && (forall i :: 0 <= i < |todo| && todo[i].Delete? ==> todo[i].dest !in w.foreign)
    && (forall d :: d in w.table && d !in w.foreign ==> Removes(todo, d, w.table[d]))
  }

  predicate HoldsLock(pc: Pc) { pc.Sweeping? || pc.Writing? }

  predicate Owns(pc: Pc) {
    pc.Prepared? || pc.Acquired? || pc.Validated? || pc.Installing? || pc.Installed? || pc.Serving? || pc.Teardown? || pc.Releasing?
  }

  predicate Named(w: World, p: nat) {
    p in w.procs && w.procs[p].helper && w.file.Some? && w.file.value.pid == p && w.file.value.attempt == w.procs[p].attempt
  }

  ghost predicate OwnerOk(w: World, p: nat)
    requires p in w.procs
  {
    var pc := w.procs[p].pc;
    && Named(w, p)
    && (pc.Prepared? || pc.Acquired? || pc.Validated? || pc.Releasing? ==> Clean(w))
    && (pc.Acquired? || pc.Validated? || pc.Installing? || pc.Installed? || pc.Serving? ==>
          w.file.value.snapshot == Published(pc.snapshot))
    && (pc.Installing? ==> pc.snapshot.iface != "" && InstallsOk(w, pc.snapshot, pc.todo))
    && (pc.Teardown? ==> Finishes(w, pc.todo))
  }

  ghost predicate InstallsOk(w: World, s: Snapshot, todo: seq<Command>) {
    forall i :: 0 <= i < |todo| ==>
      !todo[i].Delete? && (todo[i].Replace? ==> Covers(s, todo[i].dest, Route(todo[i].via, todo[i].dev)) && todo[i].dest !in w.foreign)
  }

  ghost predicate SweeperOk(w: World, p: nat)
    requires p in w.procs
  {
    && w.lock == Some(p) && (w.file.Some? ==> !Alive(w.procs, w.file.value.pid))
    && (w.procs[p].pc.Sweeping? ==> Finishes(w, w.procs[p].pc.todo))
    && (w.procs[p].pc.Writing? ==> w.file.None? && w.procs[p].helper)
  }

  predicate WaiterOk(w: World, waited: Record) {
    waited.pid in w.procs && w.procs[waited.pid].helper && w.procs[waited.pid].attempt == waited.attempt
  }

  ghost predicate ProcessOk(w: World, p: nat)
    requires p in w.procs
  {
    && (Owns(w.procs[p].pc) ==> OwnerOk(w, p))
    && (HoldsLock(w.procs[p].pc) ==> SweeperOk(w, p))
    && (w.procs[p].pc.Waiting? ==> WaiterOk(w, w.procs[p].pc.waited))
  }

  ghost predicate ProcessesOk(w: World) { forall p :: p in w.procs ==> ProcessOk(w, p) }

  predicate LockOk(w: World) {
    w.lock.Some? ==> w.lock.value in w.procs && HoldsLock(w.procs[w.lock.value].pc)
  }

  ghost predicate Inv(w: World) {
    LowerHalf !in w.foreign && UpperHalf !in w.foreign && ForeignOk(w) && FileOk(w) && LockOk(w) && ProcessesOk(w)
  }

  predicate Engaged(w: World, p: nat) { p in w.procs && (Owns(w.procs[p].pc) || HoldsLock(w.procs[p].pc)) }

  /** At most one process at a time owns the tunnel or sweeps. */
  lemma OneEngaged(w: World, p: nat, q: nat)
    requires Inv(w) && Engaged(w, p) && Engaged(w, q)
    ensures p == q
  {
    assert ProcessOk(w, p) && ProcessOk(w, q);
  }

  // ----- what other processes keep

  /** Nothing changed but process p, which was running. */
  predicate Moved(w: World, w': World, p: nat) {
    && p in w.procs && p in w'.procs && !w.procs[p].pc.Ended? && w'.foreign == w.foreign
    && w'.procs == w.procs[p := w.procs[p].(pc := w'.procs[p].pc)]
  }

  /** When no other process is engaged, p may change the table, the file and the lock. */
  lemma AloneKeeps(w: World, w': World, p: nat)
    requires Inv(w) && Moved(w, w', p) && forall q :: q != p ==> !Engaged(w, q)
    requires ForeignOk(w') && FileOk(w') && LockOk(w') && ProcessOk(w', p)
    ensures Inv(w')
  {
    forall q | q in w'.procs ensures ProcessOk(w', q) {
      if q != p {
        assert ProcessOk(w, q) && !Engaged(w, q);
      }
    }
  }

  lemma EngagedIsAlone(w: World, p: nat)
    requires Inv(w) && Engaged(w, p)
    ensures forall q :: q != p ==> !Engaged(w, q)
  {
    forall q | q != p ensures !Engaged(w, q) {
      if Engaged(w, q) {
        OneEngaged(w, p, q);
      }
    }
  }

  /** With the lock free and no live owner, nobody is engaged. */
  lemma NobodyEngaged(w: World)
    requires Inv(w) && w.lock.None? && (w.file.Some? ==> !Alive(w.procs, w.file.value.pid))
    ensures forall q :: !Engaged(w, q)
  {
    forall q | q in w.procs ensures !Engaged(w, q) {
      assert ProcessOk(w, q);
    }
  }

  /** A process that only leaves, or moves between steps where it is not engaged. */
  lemma QuietKeeps(w: World, w': World, p: nat)
    requires Inv(w) && Moved(w, w', p) && w'.table == w.table && w'.file == w.file
    requires w'.lock == if w.lock == Some(p) then None else w.lock
    requires !Engaged(w', p) && ProcessOk(w', p) && (w'.procs[p].pc.Ended? || !w.procs[p].helper)
    ensures Inv(w')
  {
    forall q | q in w'.procs ensures ProcessOk(w', q) {
      if q != p {
        assert ProcessOk(w, q);
      }
    }
  }

  lemma LaunchKeeps(w: World, p: nat, helper: bool, a: Attempt)
    requires Inv(w) && p !in w.procs
    ensures Inv(w.(procs := w.procs[p := Process(helper, a, Starting)]))
  {
    var w' := w.(procs := w.procs[p := Process(helper, a, Starting)]);
    forall q | q in w'.procs ensures ProcessOk(w', q) {
      if q != p {
        assert ProcessOk(w, q);
      }
    }
  }

  lemma CrashKeeps(w: World, p: nat)
    requires Inv(w) && Step(w, p, Crash).Some?
    ensures Inv(Step(w, p, Crash).value)
  {
    QuietKeeps(w, Step(w, p, Crash).value, p);
  }

  // ----- the steps

  /** A sweep of a snapshot that covers everything not foreign finishes. */
  lemma SweepFinishes(w: World, s: Snapshot)
    requires NoClash(w.foreign, s.exclusions)
    requires forall d :: d in w.table && d !in w.foreign ==> Covers(s, d, w.table[d])
    ensures Finishes(w, SweepCommands(s))
  {
    forall d | d in w.table && d !in w.foreign ensures Removes(SweepCommands(s), d, w.table[d]) {
      SweepRemoves(s, d, w.table[d]);
    }
    SweepRemoves(s, LowerHalf, Route("", ""));
    forall i | 0 <= i < |SweepCommands(s)| && SweepCommands(s)[i].Delete? ensures SweepCommands(s)[i].dest !in w.foreign {
      var c := SweepCommands(s)[i];
      assert Deletes(c, c.dest, Route(c.via, c.dev));
      SweepRemoves(s, c.dest, Route(c.via, c.dev));
    }
  }

  /** One command of a finishing list: foreign routes stay, and the rest still finishes. */
  lemma FinishOne(w: World, todo: seq<Command>, w': World)
    requires ForeignOk(w) && Finishes(w, todo) && todo != []
    requires w'.foreign == w.foreign && w'.table == Apply(w.table, todo[0])
    ensures ForeignOk(w') && Finishes(w', todo[1..])
    ensures forall d :: d in w'.table ==> d in w.table && w'.table[d] == w.table[d]
  {
    forall d | d in w'.table && d !in w'.foreign ensures Removes(todo[1..], d, w'.table[d]) {
      RemovesTail(todo, d, w.table[d]);
    }
  }

  /** Starting to sweep a record left behind, or the default interface when there is none. */
  lemma SweepingStarts(w: World, p: nat, s: Snapshot)
    requires Inv(w) && p in w.procs && w.procs[p].pc.Starting? && w.lock.None?
    requires if w.file.None? then s == DEFAULT_SNAPSHOT else s == w.file.value.snapshot && !Alive(w.procs, w.file.value.pid)
    ensures Inv(Move(w.(lock := Some(p)), p, Sweeping(SweepCommands(s), false)))
  {
    NobodyEngaged(w);
    SweepFinishes(w, s);
    AloneKeeps(w, Move(w.(lock := Some(p)), p, Sweeping(SweepCommands(s), false)), p);
  }

  lemma ClaimKeeps(w: World, p: nat)
    requires Inv(w) && p in w.procs && w.procs[p].pc.Starting? && w.procs[p].helper && w.lock.None? && w.file.None?
    ensures Inv(Move(w.(file := Some(OwnRecord(w, p))), p, Prepared))
  {
    NobodyEngaged(w);
    AloneKeeps(w, Move(w.(file := Some(OwnRecord(w, p))), p, Prepared), p);
  }

  lemma BegunKeeps(w: World, p: nat)
    requires Inv(w) && Step(w, p, Begin).Some?
    ensures Inv(Begun(w, p))
  {
    if w.file.Some? && Alive(w.procs, w.file.value.pid) {
      assert w.procs[p].helper || w.file.value.pid != p;
      QuietKeeps(w, Begun(w, p), p);
    } else if w.file.None? && w.procs[p].helper {
      ClaimKeeps(w, p);
    } else {
      SweepingStarts(w, p, if w.file.Some? then w.file.value.snapshot else DEFAULT_SNAPSHOT);
    }
  }

  lemma SweptOneKeeps(w: World, p: nat, ok: bool)
    requires Inv(w) && Step(w, p, Sweep(ok)).Some? && w.procs[p].pc.todo != []
    ensures Inv(Swept(w, p, ok))
  {
    assert ProcessOk(w, p);
    EngagedIsAlone(w, p);
    FinishOne(w, w.procs[p].pc.todo, Swept(w, p, ok));
    AloneKeeps(w, Swept(w, p, ok), p);
  }

  /** A process that leaves and may take the file away, when only foreign routes are left. */
  lemma LeaverKeeps(w: World, p: nat, file: Option<Record>)
    requires Inv(w) && Engaged(w, p) && (file == w.file || (file.None? && Clean(w)))
    ensures Inv(Move(w.(file := file, lock := if w.lock == Some(p) then None else w.lock), p, Ended))
  {
    var w' := Move(w.(file := file, lock := if w.lock == Some(p) then None else w.lock), p, Ended);
    assert ProcessOk(w, p);
    EngagedIsAlone(w, p);
    assert FileOk(w');
    AloneKeeps(w, w', p);
  }

  lemma SweptHelperKeeps(w: World, p: nat)
    requires Inv(w) && p in w.procs && w.procs[p].pc == Sweeping([], false) && w.procs[p].helper && Clean(w)
    ensures Inv(Move(w.(file := None), p, Writing))
  {
    assert ProcessOk(w, p);
    EngagedIsAlone(w, p);
    AloneKeeps(w, Move(w.(file := None), p, Writing), p);
  }

  lemma SweptAllKeeps(w: World, p: nat, ok: bool)
    requires Inv(w) && Step(w, p, Sweep(ok)).Some? && w.procs[p].pc.todo == []
    ensures Inv(Swept(w, p, ok))
  {
    assert SweeperOk(w, p) by {
      assert ProcessOk(w, p);
    }
    if w.procs[p].pc.failed {
      LeaverKeeps(w, p, w.file);
    } else {
      assert Clean(w) by {
        assert Finishes(w, []);
      }
      if w.procs[p].helper {
        SweptHelperKeeps(w, p);
      } else {
        LeaverKeeps(w, p, None);
      }
    }
  }

  lemma WriteKeeps(w: World, p: nat)
    requires Inv(w) && Step(w, p, Write).Some?
    ensures Inv(Step(w, p, Write).value)
  {
    assert ProcessOk(w, p);
    EngagedIsAlone(w, p);
    AloneKeeps(w, Step(w, p, Write).value, p);
  }

  /** An owner's step that publishes a snapshot covering the table, or none, and moves on. */
  lemma OwnerKeeps(w: World, w': World, p: nat)
    requires Inv(w) && Moved(w, w', p) && Owns(w.procs[p].pc) && w'.lock == w.lock
    requires ForeignOk(w') && FileOk(w') && ProcessOk(w', p) && !HoldsLock(w'.procs[p].pc)
    ensures Inv(w')
  {
    assert ProcessOk(w, p);
    EngagedIsAlone(w, p);
    AloneKeeps(w, w', p);
  }

  lemma AcquireKeeps(w: World, p: nat, iface: Option<string>)
    requires Inv(w) && Step(w, p, Acquire(iface)).Some?
    ensures Inv(AcquiredTun(w, p, iface))
  {
    assert ProcessOk(w, p);
    OwnerKeeps(w, AcquiredTun(w, p, iface), p);
  }

  /** An owner that turns to a teardown that finishes. */
  lemma TurnsBackKeeps(w: World, p: nat, s: Snapshot)
    requires Inv(w) && p in w.procs && Owns(w.procs[p].pc) && Finishes(w, SweepCommands(s))
    ensures Inv(Move(w, p, Teardown(SweepCommands(s))))
  {
    assert ProcessOk(w, p);
    OwnerKeeps(w, Move(w, p, Teardown(SweepCommands(s))), p);
  }

  lemma ValidatedKeeps(w: World, p: nat, s: Snapshot)
    requires Inv(w) && p in w.procs && Owns(w.procs[p].pc) && Clean(w) && SafeSnapshot(w, s)
    ensures Inv(Move(Update(w, w.procs[p].attempt, s), p, Validated(s)))
  {
    assert ProcessOk(w, p);
    OwnerKeeps(w, Move(Update(w, w.procs[p].attempt, s), p, Validated(s)), p);
  }

  lemma ValidateKeeps(w: World, p: nat, u: Option<Underlay>)
    requires Inv(w) && Step(w, p, Validate(u)).Some?
    ensures Inv(ValidatedRoutes(w, p, u))
  {
    var s := w.procs[p].pc.snapshot;
    assert Clean(w) && SafeSnapshot(w, s) by {
      assert ProcessOk(w, p);
    }
    if u.None? || u.value.device == "" || u.value.exclusions == [] {
      SweepFinishes(w, s);
      TurnsBackKeeps(w, p, s);
    } else {
      ValidatedKeeps(w, p, s.(device := u.value.device, gateway := u.value.gateway, exclusions := u.value.exclusions));
    }
  }

  lemma BringupInstalls(w: World, s: Snapshot, addresses: nat)
    requires s.iface != "" && SafeSnapshot(w, s)
    ensures InstallsOk(w, s, BringupCommands(s, addresses))
  {
    BringupIsCovered(s, addresses);
    forall i | 0 <= i < |BringupCommands(s, addresses)|
      ensures var c := BringupCommands(s, addresses)[i]; !c.Delete? && (c.Replace? ==> Covers(s, c.dest, Route(c.via, c.dev)))
    {
      assert BringupCommands(s, addresses)[i] in BringupCommands(s, addresses);
    }
  }

  lemma BringupKeeps(w: World, p: nat, addresses: nat)
    requires Inv(w) && Step(w, p, Bringup(addresses)).Some?
    ensures Inv(BroughtUp(w, p, addresses))
  {
    var s := w.procs[p].pc.snapshot;
    assert Named(w, p) && Clean(w) && SafeSnapshot(w, s) && w.file.value.snapshot == Published(s) by {
      assert ProcessOk(w, p);
    }
    if s.iface != "" && addresses != 0 {
      BringupInstalls(w, s, addresses);
      OwnerKeeps(w, BroughtUp(w, p, addresses), p);
    } else {
      SweepFinishes(w, s);
      TurnsBackKeeps(w, p, s);
    }
  }

  /** Each installed route is one that the file on disk already covers. */
  lemma InstallOneKeeps(w: World, p: nat)
    requires Inv(w) && Step(w, p, Install(true)).Some? && w.procs[p].pc.todo != []
    ensures Inv(InstalledNext(w, p, true))
  {
    assert ProcessOk(w, p);
    var w' := InstalledNext(w, p, true);
    var todo := w.procs[p].pc.todo;
    forall i | 0 <= i < |todo[1..]| ensures todo[1..][i] == todo[i + 1] {
    }
    OwnerKeeps(w, w', p);
  }

  /** What a validated or later owner has in mind is what its file says. */
  lemma PublishedByOwner(w: World, p: nat)
    requires Inv(w) && p in w.procs
    requires var pc := w.procs[p].pc; pc.Validated? || pc.Installing? || pc.Installed? || pc.Serving?
    ensures Named(w, p) && w.file.value.snapshot == Published(w.procs[p].pc.snapshot)
  {
    assert ProcessOk(w, p);
  }

  lemma InstalledKeeps(w: World, p: nat)
    requires Inv(w) && p in w.procs && w.procs[p].pc.Installing? && w.procs[p].pc.todo == []
    ensures Inv(InstalledNext(w, p, true))
  {
    PublishedByOwner(w, p);
    OwnerKeeps(w, InstalledNext(w, p, true), p);
  }

  lemma InstallEndKeeps(w: World, p: nat, ok: bool)
    requires Inv(w) && Step(w, p, Install(ok)).Some? && (w.procs[p].pc.todo == [] || !ok)
    ensures Inv(InstalledNext(w, p, ok))
  {
    var s := w.procs[p].pc.snapshot;
    PublishedByOwner(w, p);
    if w.procs[p].pc.todo == [] {
      InstalledKeeps(w, p);
    } else {
      SweepCoveredBy(w, s);
      TurnsBackKeeps(w, p, s);
    }
  }

  /** A sweep of the in-memory snapshot takes away whatever the published one covers. */
  lemma SweepCoveredBy(w: World, s: Snapshot)
    requires FileOk(w) && w.file.Some? && w.file.value.snapshot == Published(s)
    ensures Finishes(w, SweepCommands(s))
  {
    forall d | d in w.table && d !in w.foreign ensures Covers(s, d, w.table[d]) {
      assert Covers(Published(s), d, w.table[d]);
    }
    SweepFinishes(w, s);
  }

  lemma AttachKeeps(w: World, p: nat, ok: bool)
    requires Inv(w) && Step(w, p, Attach(ok)).Some?
    ensures Inv(Attached(w, p, ok))
  {
    var s := w.procs[p].pc.snapshot;
    PublishedByOwner(w, p);
    if ok {
      OwnerKeeps(w, Attached(w, p, ok), p);
    } else {
      SweepCoveredBy(w, s);
      TurnsBackKeeps(w, p, s);
    }
  }

  lemma ShutdownKeeps(w: World, p: nat)
    requires Inv(w) && Step(w, p, Shutdown).Some?
    ensures Inv(Step(w, p, Shutdown).value)
  {
    PublishedByOwner(w, p);
    SweepCoveredBy(w, w.procs[p].pc.snapshot);
    TurnsBackKeeps(w, p, w.procs[p].pc.snapshot);
  }

  lemma TearDownKeeps(w: World, p: nat)
    requires Inv(w) && Step(w, p, TearDown).Some?
    ensures Inv(TornDown(w, p))
  {
    assert ProcessOk(w, p);
    var todo := w.procs[p].pc.todo;
    if todo != [] {
      FinishOne(w, todo, TornDown(w, p));
    }
    OwnerKeeps(w, TornDown(w, p), p);
  }

  lemma ReleaseKeeps(w: World, p: nat)
    requires Inv(w) && Step(w, p, Release).Some?
    ensures Inv(Released(w, p))
  {
    assert ProcessOk(w, p);
    OwnerKeeps(w, Released(w, p), p);
  }

  /** A poll that finds the helper it signalled dead takes the file away, although the file names a live one. */
  predicate PollsAway(w: World, p: nat, a: Action) {
    && a == Poll(true) && p in w.procs && w.procs[p].pc.Waiting?
    && w.file.Some? && w.file.value.attempt == w.procs[p].pc.waited.attempt
    && !Alive(w.procs, w.procs[p].pc.waited.pid) && Alive(w.procs, w.file.value.pid)
  }

  lemma PollSweepKeeps(w: World, p: nat, ok: bool)
    requires Inv(w) && Step(w, p, Poll(ok)).Some? && w.file.Some?
    requires w.file.value.attempt == w.procs[p].pc.waited.attempt && !Alive(w.procs, w.procs[p].pc.waited.pid)
    requires !Alive(w.procs, w.file.value.pid)
    ensures Inv(Polled(w, p, ok))
  {
    NobodyEngaged(w);
    SweepFinishes(w, w.file.value.snapshot);
    FinishAll(w, SweepCommands(w.file.value.snapshot), Polled(w, p, ok));
    AloneKeeps(w, Polled(w, p, ok), p);
  }

  /** A sweep that fails at its end leaves a live owner its file, though not its routes. */
  lemma PollRobKeeps(w: World, p: nat)
    requires Inv(w) && Step(w, p, Poll(false)).Some? && w.file.Some?
    requires w.file.value.attempt == w.procs[p].pc.waited.attempt && !Alive(w.procs, w.procs[p].pc.waited.pid)
    ensures Inv(Polled(w, p, false))
  {
    var w' := Polled(w, p, false);
    SweepFinishes(w, w.file.value.snapshot);
    FinishAll(w, SweepCommands(w.file.value.snapshot), w');
    QuietKeeps(w, Move(w, p, Ended), p);
    CleanedKeeps(Move(w, p, Ended), w');
  }

  /** Taking away every route that is not foreign harms no invariant as long as nobody holds the lock. */
  lemma CleanedKeeps(w: World, w': World)
    requires Inv(w) && w.lock.None? && w' == w.(table := w'.table) && ForeignOk(w') && Clean(w')
    ensures Inv(w')
  {
    forall q | q in w'.procs ensures ProcessOk(w', q) {
      assert ProcessOk(w, q);
    }
  }

  lemma PollKeeps(w: World, p: nat, ok: bool)
    requires Inv(w) && Step(w, p, Poll(ok)).Some? && !PollsAway(w, p, Poll(ok))
    ensures Inv(Polled(w, p, ok))
  {
    var waited := w.procs[p].pc.waited;
    if w.file.None? || w.file.value.attempt != waited.attempt {
      QuietKeeps(w, Polled(w, p, ok), p);
    } else if !Alive(w.procs, waited.pid) {
      if ok || !Alive(w.procs, w.file.value.pid) {
        PollSweepKeeps(w, p, ok);
      } else {
        PollRobKeeps(w, p);
      }
    }
  }

  lemma FinishAll(w: World, todo: seq<Command>, w': World)
    requires ForeignOk(w) && Finishes(w, todo) && w'.foreign == w.foreign && w'.table == ApplyAll(w.table, todo)
    ensures ForeignOk(w') && Clean(w')
  {
    AppliedDeletions(w.table, todo);
    forall d | d in w.foreign ensures !Removes(todo, d, w.table[d]) {
    }
  }

  lemma StepKeeps(w: World, p: nat, a: Action)
    requires Inv(w) && Step(w, p, a).Some? && !PollsAway(w, p, a)
    ensures Inv(Step(w, p, a).value)
  {
    match a
    case Launch(helper, attempt) => LaunchKeeps(w, p, helper, attempt);
    case Begin => BegunKeeps(w, p);
    case Sweep(ok) =>
      if w.procs[p].pc.todo == [] {
        SweptAllKeeps(w, p, ok);
      } else {
        SweptOneKeeps(w, p, ok);
      }
    case Write => WriteKeeps(w, p);
    case Acquire(iface) => AcquireKeeps(w, p, iface);
    case Validate(u) => ValidateKeeps(w, p, u);
    case Bringup(addresses) => BringupKeeps(w, p, addresses);
    case Install(ok) =>
      if ok && w.procs[p].pc.todo != [] {
        InstallOneKeeps(w, p);
      } else {
        InstallEndKeeps(w, p, ok);
      }
    case Attach(ok) => AttachKeeps(w, p, ok);
    case Shutdown => ShutdownKeeps(w, p);
    case TearDown => TearDownKeeps(w, p);
    case Release => ReleaseKeeps(w, p);
    case Poll(ok) => PollKeeps(w, p, ok);
    case Crash => CrashKeeps(w, p);
  }
}
