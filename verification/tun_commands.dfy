/** The `ip` commands of the Linux TUN helper and what they do to the route table. */
module TunCommands {
  import opened Wrappers

  const DEFAULT_INTERFACE := "rdtun0"

  /** The two halves of the IPv4 space, and single excluded hosts. */
  datatype Destination = LowerHalf | UpperHalf | Host(address: string)

  /** An empty `via` is a route without a gateway. */
  datatype Route = Route(via: string, dev: string)

  type Table = map<Destination, Route>

  datatype Snapshot = Snapshot(iface: string, device: string, gateway: string, exclusions: seq<string>)

  /** Other stands for address and link commands, which do not touch routes. */
  datatype Command =
    | Delete(dest: Destination, via: string, dev: string)
    | Replace(dest: Destination, via: string, dev: string)
    | Other

  function Interface(s: Snapshot): string { if s.iface == "" then DEFAULT_INTERFACE else s.iface }

  /** A delete only hits a route with the given gateway and device; what is left empty matches everything. */
  predicate Hits(r: Route, via: string, dev: string) { (via == "" || r.via == via) && (dev == "" || r.dev == dev) }

  function Apply(t: Table, c: Command): Table {
    match c
    case Delete(dest, via, dev) => if dest in t && Hits(t[dest], via, dev) then t - {dest} else t
    case Replace(dest, via, dev) => t[dest := Route(via, dev)]
    case Other => t
  }

  function ApplyAll(t: Table, cs: seq<Command>): Table
    decreases |cs|
  {
    if cs == [] then t else ApplyAll(Apply(t, cs[0]), cs[1..])
  }

  function Deletions(s: Snapshot, hosts: seq<string>): seq<Command> {
    if hosts == [] then [] else [Delete(Host(hosts[0]), s.gateway, s.device)] + Deletions(s, hosts[1..])
  }

  /** What a cleanup runs for a snapshot. */
  function SweepCommands(s: Snapshot): seq<Command> {
    [Delete(LowerHalf, "", Interface(s)), Delete(UpperHalf, "", Interface(s))] + Deletions(s, s.exclusions) + [Other, Other]
  }

  function Installations(s: Snapshot, hosts: seq<string>): seq<Command> {
    if hosts == [] then [] else [Replace(Host(hosts[0]), s.gateway, s.device)] + Installations(s, hosts[1..])
  }

  /** What a bring-up runs: the link, each address, the two halves, the exclusions. */
  function BringupCommands(s: Snapshot, addresses: nat): seq<Command> {
    seq(addresses + 1, _ => Other) + [Replace(LowerHalf, "", s.iface), Replace(UpperHalf, "", s.iface)]
    + Installations(s, s.exclusions)
  }

  /** The routes a tunnel needs: both halves through its interface, each excluded host around it. */
  function Wants(s: Snapshot, d: Destination): Option<Route> {
    match d
    case LowerHalf => Some(Route("", s.iface))
    case UpperHalf => Some(Route("", s.iface))
    case Host(a) => if a in s.exclusions then Some(Route(s.gateway, s.device)) else None
  }

  /** t is the table `before` with exactly the routes a tunnel needs on top. */
  ghost predicate InstalledOver(before: Table, t: Table, s: Snapshot) {
    forall d :: match Wants(s, d)
                case Some(r) => d in t && t[d] == r
                case None => (d in t <==> d in before) && (d in t ==> t[d] == before[d])
  }

  // ----- what a list of commands removes

  predicate Deletes(c: Command, d: Destination, r: Route) { c.Delete? && c.dest == d && Hits(r, c.via, c.dev) }

  predicate Removes(cs: seq<Command>, d: Destination, r: Route) {
    exists i :: 0 <= i < |cs| && Deletes(cs[i], d, r)
  }

  predicate OnlyRemoves(cs: seq<Command>) { forall i :: 0 <= i < |cs| ==> !cs[i].Replace? }

  lemma {:induction false} AppliedDeletions(t: Table, cs: seq<Command>)
    requires OnlyRemoves(cs)
    ensures forall d :: d in ApplyAll(t, cs) <==> d in t && !Removes(cs, d, t[d])
    ensures forall d :: d in ApplyAll(t, cs) ==> ApplyAll(t, cs)[d] == t[d]
    decreases |cs|
  {
    if cs != [] {
      var t1 := Apply(t, cs[0]);
      AppliedDeletions(t1, cs[1..]);
      forall d | d in t ensures Removes(cs, d, t[d]) <==> Deletes(cs[0], d, t[d]) || Removes(cs[1..], d, t[d]) {
        RemovesTail(cs, d, t[d]);
      }
    }
  }

  lemma RemovesTail(cs: seq<Command>, d: Destination, r: Route)
    requires cs != []
    ensures Removes(cs, d, r) <==> Deletes(cs[0], d, r) || Removes(cs[1..], d, r)
  {
    if Removes(cs, d, r) {
      var i :| 0 <= i < |cs| && Deletes(cs[i], d, r);
      assert i > 0 ==> cs[1..][i - 1] == cs[i];
    }
    if Removes(cs[1..], d, r) {
      var i :| 0 <= i < |cs[1..]| && Deletes(cs[1..][i], d, r);
      assert cs[i + 1] == cs[1..][i];
    }
  }

  /** The routes a cleanup for a snapshot is responsible for. */
  predicate Covers(s: Snapshot, d: Destination, r: Route) {
    match d
    case Host(a) => a in s.exclusions && Hits(r, s.gateway, s.device)
    case _ => r.dev == Interface(s)
  }

  lemma {:induction false} DeletionsRemove(s: Snapshot, hosts: seq<string>, d: Destination, r: Route)
    ensures Removes(Deletions(s, hosts), d, r) <==> d.Host? && d.address in hosts && Hits(r, s.gateway, s.device)
    ensures OnlyRemoves(Deletions(s, hosts))
  {
    if hosts != [] {
      DeletionsRemove(s, hosts[1..], d, r);
      RemovesTail(Deletions(s, hosts), d, r);
      assert Deletions(s, hosts)[1..] == Deletions(s, hosts[1..]);
    }
  }

  lemma RemovesConcat(a: seq<Command>, b: seq<Command>, d: Destination, r: Route)
    ensures Removes(a + b, d, r) <==> Removes(a, d, r) || Removes(b, d, r)
  {
    if Removes(a, d, r) {
      var i :| 0 <= i < |a| && Deletes(a[i], d, r);
      assert (a + b)[i] == a[i];
    }
    if Removes(b, d, r) {
      var i :| 0 <= i < |b| && Deletes(b[i], d, r);
      assert (a + b)[|a| + i] == b[i];
    }
  }

  /** A cleanup removes exactly the routes its snapshot covers. */
  lemma SweepRemoves(s: Snapshot, d: Destination, r: Route)
    ensures Removes(SweepCommands(s), d, r) <==> Covers(s, d, r)
    ensures OnlyRemoves(SweepCommands(s))
  {
    var halves := [Delete(LowerHalf, "", Interface(s)), Delete(UpperHalf, "", Interface(s))];
    var hosts := Deletions(s, s.exclusions);
    DeletionsRemove(s, s.exclusions, d, r);
    RemovesConcat(halves, hosts, d, r);
    RemovesConcat(halves + hosts, [Other, Other], d, r);
    assert Removes(halves, d, r) <==> Deletes(halves[0], d, r) || Deletes(halves[1], d, r);
  }

  lemma {:induction false} InstallationsCovered(s: Snapshot, hosts: seq<string>)
    ensures forall c :: c in Installations(s, hosts) ==>
              c.Replace? && c.dest.Host? && c.dest.address in hosts && c.via == s.gateway && c.dev == s.device
  {
    if hosts != [] {
      InstallationsCovered(s, hosts[1..]);
    }
  }

  /** Every route a bring-up installs is one that the cleanup for the same snapshot removes. */
  lemma BringupIsCovered(s: Snapshot, addresses: nat)
    requires s.iface != ""
    ensures forall c :: c in BringupCommands(s, addresses) && c.Replace? ==> Covers(s, c.dest, Route(c.via, c.dev))
    ensures forall c :: c in BringupCommands(s, addresses) ==> !c.Delete?
  {
    InstallationsCovered(s, s.exclusions);
  }
}
