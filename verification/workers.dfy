/** The round-robin worker set of an ingress. */
module Workers {
  import opened Wrappers

  /** A ready worker: its index and the outbound channel of its current generation. */
  datatype Route<C> = Route(index: nat, outbound: C)

  // ----- the specification: a set of routes in service order, and a cursor

  datatype Ring<C> = Ring(workers: seq<Route<C>>, next: nat)

  function Position<C>(ws: seq<Route<C>>, index: nat): (p: nat)
    ensures p <= |ws|
    ensures p < |ws| ==> ws[p].index == index
    ensures forall i :: 0 <= i < p ==> ws[i].index != index
  {
    if ws == [] || ws[0].index == index then 0 else 1 + Position(ws[1..], index)
  }

  function Removed<C>(r: Ring<C>, index: nat): Ring<C> {
    var p := Position(r.workers, index);
    if p == |r.workers| then r else
    var ws := r.workers[..p] + r.workers[p + 1..];
    Ring(ws, if r.next >= |ws| then 0 else r.next)
  }

  function Readied<C>(r: Ring<C>, index: nat, outbound: C): Ring<C> {
    var s := Removed(r, index);
    var ws := s.workers + [Route(index, outbound)];
    Ring(ws, if s.next >= |ws| then 0 else s.next)
  }

  function Advanced<C>(r: Ring<C>): Ring<C> {
    if r.workers == [] then r else r.(next := (r.next + 1) % |r.workers|)
  }

  function Served<C>(r: Ring<C>): Option<Route<C>> {
    if r.workers == [] then None else Some(r.workers[r.next % |r.workers|])
  }

  predicate Distinct<C>(ws: seq<Route<C>>) {
    forall i, j :: 0 <= i < j < |ws| ==> ws[i].index != ws[j].index
  }

  datatype Event<C> = SetReady(index: nat, outbound: C) | Remove(index: nat) | Next

  function Apply<C>(r: Ring<C>, e: Event<C>): Ring<C> {
    match e
    case SetReady(i, c) => Readied(r, i, c)
    case Remove(i) => Removed(r, i)
    case Next => Advanced(r)
  }

  function History<C>(events: seq<Event<C>>): Ring<C> {
    if events == [] then Ring([], 0) else Apply(History(events[..|events| - 1]), events[|events| - 1])
  }

  /** The channel a history leaves in force for a worker: that of its last SetReady, unless a Remove followed. */
  function InForce<C>(events: seq<Event<C>>, index: nat): Option<C> {
    if events == [] then None else
    match events[|events| - 1]
    case SetReady(i, c) => if i == index then Some(c) else InForce(events[..|events| - 1], index)
    case Remove(i) => if i == index then None else InForce(events[..|events| - 1], index)
    case Next => InForce(events[..|events| - 1], index)
  }

  ghost predicate Agrees<C>(r: Ring<C>, events: seq<Event<C>>, index: nat) {
    match InForce(events, index)
    case None => Position(r.workers, index) == |r.workers|
    case Some(c) => Position(r.workers, index) < |r.workers| &&
                    r.workers[Position(r.workers, index)].outbound == c
  }

  /** Where the k-th worker stood before the one at p was taken out. */
  function Before(k: nat, p: nat): nat { if k < p then k else k + 1 }

  lemma RemovedAt<C>(r: Ring<C>, index: nat)
    ensures var p, ws := Position(r.workers, index), Removed(r, index).workers;
            |ws| == (if p < |r.workers| then |r.workers| - 1 else |r.workers|) &&
            forall k :: 0 <= k < |ws| ==> Before(k, p) < |r.workers| && ws[k] == r.workers[Before(k, p)]
  {
  }

  lemma RemovedIsDistinct<C>(r: Ring<C>, index: nat)
    requires Distinct(r.workers)
    ensures Distinct(Removed(r, index).workers)
  {
    var p, ws := Position(r.workers, index), Removed(r, index).workers;
    RemovedAt(r, index);
    forall i, j | 0 <= i < j < |ws| ensures ws[i].index != ws[j].index {
      assert r.workers[Before(i, p)].index != r.workers[Before(j, p)].index;
    }
  }

  lemma RemovedMember<C>(r: Ring<C>, index: nat, x: Route<C>)
    requires Distinct(r.workers)
    ensures x in Removed(r, index).workers <==> x in r.workers && x.index != index
  {
    var p, ws := Position(r.workers, index), Removed(r, index).workers;
    RemovedAt(r, index);
    if x in r.workers && x.index != index {
      var i :| 0 <= i < |r.workers| && r.workers[i] == x;
      assert i != p;
      assert x == ws[if i < p then i else i - 1];
    }
    if x in ws {
      var k :| 0 <= k < |ws| && ws[k] == x;
      assert x == r.workers[Before(k, p)];
    }
  }

  lemma RemovedFacts<C>(r: Ring<C>, index: nat)
    requires Distinct(r.workers)
    ensures Distinct(Removed(r, index).workers)
    ensures forall x :: x in Removed(r, index).workers <==> x in r.workers && x.index != index
  {
    RemovedIsDistinct(r, index);
    forall x ensures x in Removed(r, index).workers <==> x in r.workers && x.index != index {
      RemovedMember(r, index, x);
    }
  }

  lemma PositionFinds<C>(ws: seq<Route<C>>, index: nat, x: Route<C>)
    requires Distinct(ws) && x in ws && x.index == index
    ensures Position(ws, index) < |ws| && ws[Position(ws, index)] == x
  {
    var i :| 0 <= i < |ws| && ws[i] == x;
    assert Position(ws, index) <= i;
  }

  lemma StepKeeps<C>(r: Ring<C>, e: Event<C>)
    requires Distinct(r.workers) && (r.next < |r.workers| || r.next == 0)
    ensures Distinct(Apply(r, e).workers)
    ensures Apply(r, e).next < |Apply(r, e).workers| || Apply(r, e).next == 0
  {
    match e
    case SetReady(i, c) => RemovedFacts(r, i);
    case Remove(i) => RemovedFacts(r, i);
    case Next =>
  }

  /** Whatever the history, worker indices stay distinct, the cursor stays inside the set, and the set holds
      exactly the workers in force, each with its latest channel. */
  lemma {:induction false} HistoryIsCoherent<C>(events: seq<Event<C>>)
    ensures Distinct(History(events).workers)
    ensures History(events).next < |History(events).workers| || History(events).next == 0
    ensures forall index :: Agrees(History(events), events, index)
  {
    if events != [] {
      var before := events[..|events| - 1];
      var e := events[|events| - 1];
      HistoryIsCoherent(before);
      var r := History(before);
      StepKeeps(r, e);
      forall index ensures Agrees(Apply(r, e), events, index) {
        assert Agrees(r, before, index);
        StepAgrees(r, before, e, index);
        assert events == before + [e];
      }
    }
  }

  lemma StepAgrees<C>(r: Ring<C>, events: seq<Event<C>>, e: Event<C>, index: nat)
    requires Distinct(r.workers) && Agrees(r, events, index)
    ensures Agrees(Apply(r, e), events + [e], index)
  {
    assert (events + [e])[..|events|] == events;
    var s := Apply(r, e);
    match e
    case Next =>
    case Remove(i) =>
      RemovedFacts(r, i);
      SamePosition(r, s, i, index);
    case SetReady(i, c) =>
      RemovedFacts(r, i);
      var m := Removed(r, i);
      StepKeepsDistinct(r, i, c);
      if i == index {
        PositionFinds(s.workers, index, Route(i, c));
      } else {
        SamePosition(r, m, i, index);
        if Position(m.workers, index) < |m.workers| {
          PositionFinds(s.workers, index, m.workers[Position(m.workers, index)]);
        } else {
          NotThere(m, s, i, c, index);
        }
      }
  }

  lemma StepKeepsDistinct<C>(r: Ring<C>, i: nat, c: C)
    requires Distinct(r.workers)
    ensures Distinct(Readied(r, i, c).workers)
  {
    RemovedFacts(r, i);
  }

  lemma NotThere<C>(m: Ring<C>, s: Ring<C>, i: nat, c: C, index: nat)
    requires s.workers == m.workers + [Route(i, c)] && i != index
    requires Position(m.workers, index) == |m.workers|
    ensures Position(s.workers, index) == |s.workers|
  {
    assert forall k :: 0 <= k < |m.workers| ==> s.workers[k] == m.workers[k];
  }

  lemma SamePosition<C>(r: Ring<C>, m: Ring<C>, i: nat, index: nat)
    requires Distinct(r.workers) && m == Removed(r, i)
    ensures i == index ==> Position(m.workers, index) == |m.workers|
    ensures i != index ==> (Position(m.workers, index) < |m.workers| <==> Position(r.workers, index) < |r.workers|)
    ensures i != index && Position(r.workers, index) < |r.workers| ==>
              m.workers[Position(m.workers, index)] == r.workers[Position(r.workers, index)]
  {
    RemovedFacts(r, i);
    var p := Position(m.workers, index);
    assert p < |m.workers| ==> m.workers[p] in m.workers;
    if i != index && Position(r.workers, index) < |r.workers| {
      PositionFinds(m.workers, index, r.workers[Position(r.workers, index)]);
    }
  }

  // ----- the order of service

  /** When a worker last became ready, counted in events. */
  function LastReady<C>(events: seq<Event<C>>, index: nat): (n: nat)
    ensures n <= |events|
  {
    if events == [] then 0
    else if events[|events| - 1].SetReady? && events[|events| - 1].index == index then |events|
    else LastReady(events[..|events| - 1], index)
  }

  ghost predicate InOrder<C>(ws: seq<Route<C>>, events: seq<Event<C>>) {
    forall i, j :: 0 <= i < j < |ws| ==> LastReady(events, ws[i].index) < LastReady(events, ws[j].index)
  }

  lemma RemovedKeepsOrder<C>(r: Ring<C>, index: nat, rank: nat -> nat)
    requires forall i, j :: 0 <= i < j < |r.workers| ==> rank(r.workers[i].index) < rank(r.workers[j].index)
    ensures var ws := Removed(r, index).workers;
            forall i, j :: 0 <= i < j < |ws| ==> rank(ws[i].index) < rank(ws[j].index)
  {
    var p, ws := Position(r.workers, index), Removed(r, index).workers;
    RemovedAt(r, index);
    forall i, j | 0 <= i < j < |ws| ensures rank(ws[i].index) < rank(ws[j].index) {
      assert rank(r.workers[Before(i, p)].index) < rank(r.workers[Before(j, p)].index);
    }
  }

  lemma RemovedInOrder<C>(r: Ring<C>, index: nat, events: seq<Event<C>>)
    requires InOrder(r.workers, events)
    ensures InOrder(Removed(r, index).workers, events)
  {
    RemovedKeepsOrder(r, index, n => LastReady(events, n));
  }

  /** Whatever the history, the workers of the set stand in the order in which they last became ready. */
  lemma {:induction false} OrderIsReadiness<C>(events: seq<Event<C>>)
    ensures InOrder(History(events).workers, events)
  {
    if events != [] {
      var before, e := events[..|events| - 1], events[|events| - 1];
      var r := History(before);
      OrderIsReadiness(before);
      HistoryIsCoherent(before);
      match e
      case Next =>
      case Remove(i) => RemovedInOrder(r, i, before);
      case SetReady(i, c) =>
        RemovedInOrder(r, i, before);
        RemovedFacts(r, i);
        JoinsLast(Removed(r, i).workers, before, i, c);
        assert events == before + [SetReady(i, c)];
    }
  }

  lemma JoinsLast<C>(ws: seq<Route<C>>, before: seq<Event<C>>, i: nat, c: C)
    requires InOrder(ws, before) && forall x :: x in ws ==> x.index != i
    ensures InOrder(ws + [Route(i, c)], before + [SetReady(i, c)])
  {
    var events := before + [SetReady(i, c)];
    assert events[..|events| - 1] == before;
    forall k | 0 <= k < |ws| ensures LastReady(events, ws[k].index) == LastReady(before, ws[k].index) {
      assert ws[k] in ws;
    }
  }

  /** Who is served next after a worker was removed: the one whose turn it was, if it stood before the removed one; the
      one after the removed one, if that was it. If the removed one stood before the one whose turn it was, that one is
      passed over for its successor. */
  lemma ServedAfterRemoval<C>(r: Ring<C>, index: nat)
    requires r.next < |r.workers| && Position(r.workers, index) < |r.workers| && |r.workers| > 1
    ensures var p, n := Position(r.workers, index), |r.workers|;
            Served(Removed(r, index)) ==
            Some(if r.next < p then r.workers[r.next]
                 else if p == 0 && r.next == n - 1 then r.workers[1]
                 else r.workers[Wrapped(r.next + 1, n)])
  {
    RemovedAt(r, index);
    CursorMoves(Removed(r, index));
  }

  // ----- rotation

  /** The routes served by n consecutive calls of Next. */
  function Rotation<C>(r: Ring<C>, n: nat): seq<Route<C>>
    requires r.workers != []
    decreases n
  {
    if n == 0 then [] else [Served(r).value] + Rotation(Advanced(r), n - 1)
  }

  function Wrapped(i: nat, n: nat): nat
    requires i < 2 * n
  {
    if i < n then i else i - n
  }

  lemma CursorMoves<C>(r: Ring<C>)
    requires r.next < |r.workers|
    ensures Served(r) == Some(r.workers[r.next])
    ensures Advanced(r) == r.(next := Wrapped(r.next + 1, |r.workers|))
  {
    assert r.next % |r.workers| == r.next;
  }

  lemma {:induction false} RotationAt<C>(r: Ring<C>, n: nat)
    requires r.next < |r.workers| && n <= |r.workers|
    ensures |Rotation(r, n)| == n
    ensures forall k :: 0 <= k < n ==> Rotation(r, n)[k] == r.workers[Wrapped(r.next + k, |r.workers|)]
    decreases n
  {
    if n > 0 {
      CursorMoves(r);
      var s := Advanced(r);
      RotationAt(s, n - 1);
      var rest := Rotation(s, n - 1);
      assert Rotation(r, n) == [r.workers[r.next]] + rest;
      forall k | 0 < k < n ensures Rotation(r, n)[k] == r.workers[Wrapped(r.next + k, |r.workers|)] {
        assert Rotation(r, n)[k] == rest[k - 1];
        assert Wrapped(s.next + (k - 1), |r.workers|) == Wrapped(r.next + k, |r.workers|);
      }
    }
  }

  lemma RotatedIsDistinct<C>(workers: seq<Route<C>>, k: nat)
    requires Distinct(workers) && k <= |workers|
    ensures Distinct(workers[k..] + workers[..k])
  {
  }

  /** On an unchanged set of n workers, n calls of Next serve every worker exactly once. */
  lemma RotationServesEachOnce<C>(r: Ring<C>)
    requires Distinct(r.workers) && r.next < |r.workers|
    ensures multiset(Rotation(r, |r.workers|)) == multiset(r.workers)
    ensures Distinct(Rotation(r, |r.workers|))
  {
    RotationIsWhole(r);
    RotatedIsDistinct(r.workers, r.next);
    SameRotated(r.workers, r.next);
  }

  lemma SameRotated<C>(workers: seq<Route<C>>, k: nat)
    requires k <= |workers|
    ensures multiset(workers[k..] + workers[..k]) == multiset(workers)
  {
    assert workers == workers[..k] + workers[k..];
  }

  lemma RotationIsWhole<C>(r: Ring<C>)
    requires r.next < |r.workers|
    ensures Rotation(r, |r.workers|) == r.workers[r.next..] + r.workers[..r.next]
  {
    RotationAt(r, |r.workers|);
  }

  // ----- the set itself, shifted in place

  class WorkerSet<C(0,==)> {
    var workers: seq<Route<C>>
    var next: nat

    ghost function Value(): Ring<C>
      reads this
    {
      Ring(workers, next)
    }

    constructor ()
      ensures Value() == Ring([], 0)
    {
      workers, next := [], 0;
    }

    method SetReady(index: nat, outbound: C)
      modifies this
      ensures Value() == Readied(old(Value()), index, outbound)
    {
      RemoveLocked(index);
      workers := workers + [Route(index, outbound)];
      if next >= |workers| {
        next := 0;
      }
    }

    method Remove(index: nat)
      modifies this
      ensures Value() == Removed(old(Value()), index)
    {
      RemoveLocked(index);
    }

    method Next() returns (served: Option<Route<C>>)
      modifies this
      ensures served == Served(old(Value()))
      ensures Value() == Advanced(old(Value()))
    {
      if |workers| == 0 {
        return None;
      }
      var worker := workers[next % |workers|];
      next := (next + 1) % |workers|;
      return Some(worker);
    }

    method RemoveLocked(index: nat)
      modifies this
      ensures Value() == Removed(old(Value()), index)
    {
      var i := 0;
      while i < |workers|
        invariant 0 <= i <= |workers|
        invariant workers == old(workers) && next == old(next)
        invariant forall k :: 0 <= k < i ==> workers[k].index != index
      {
        if workers[i].index != index {
          i := i + 1;
          continue;
        }
        assert Position(workers, index) == i;
        workers := workers[..i] + workers[i + 1..];
        if |workers| == 0 || next >= |workers| {
          next := 0;
        }
        return;
      }
    }
  }

  function RouteIDForWorker(index: nat): nat { index + 1 }
}
