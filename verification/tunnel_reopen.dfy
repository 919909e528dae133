/** When a server session gets a second upstream connection for a stream id. */
module TunnelReopen {
  import opened Wrappers
  import opened Frames
  import opened Tunnel
  import E = TcpEgress

  /** The server takes an open frame for an id that it opened before and has closed since. */
  predicate ReopensAt(s: System, c: nat, a: Action) {
    && a.ServerReceives? && a.c == c && c < |s.sessions|
    && ReadDatagram(a.datagram).Ok? && E.Reopens(s.sessions[c].egress, ReadDatagram(a.datagram).value)
  }

  ghost predicate AllOpeningsOk(s: System) { forall c :: 0 <= c < |s.sessions| ==> E.OpeningsOk(s.sessions[c].egress) }

  ghost predicate Single(s: System, c: nat) { c < |s.sessions| ==> E.SingleUpstream(s.sessions[c].egress) }

  lemma ReceivingIsExact(e: E.Egress, b: Bytes)
    requires E.Inv(e) && E.OpeningsOk(e)
    ensures var e' := E.ReceiveFrame(e, b);
            && E.OpeningsOk(e')
            && (E.AddsSecond(e, e') <==> ReadDatagram(b).Ok? && E.Reopens(e, ReadDatagram(b).value))
            && |e'.streams| <= |e.streams| + 1
  {
    if ReadDatagram(b).Ok? {
      var f := ReadDatagram(b).value;
      E.HandleKeepsOpenings(e, f);
      E.SecondExactly(e, f);
      E.WhatIsAdded(e, f);
    } else {
      E.ReceiveKeeps(e, b);
      E.OpeningsCarry(e, E.ReceiveFrame(e, b));
    }
  }

  /** A step of the tunnel gives a session a second upstream connection for an id if and only if the session takes an
      open frame for an id opened before and no longer open. */
  lemma ReopeningIsExact(s: System, a: Action, c: nat)
    requires Inv(s) && AllOpeningsOk(s) && Step(s, a).Some? && c < |s.sessions|
    ensures var s' := Step(s, a).value;
            && c < |s'.sessions| && E.OpeningsOk(s'.sessions[c].egress)
            && (E.AddsSecond(s.sessions[c].egress, s'.sessions[c].egress) <==> ReopensAt(s, c, a))
            && (Single(s', c) <==> Single(s, c) && !ReopensAt(s, c, a))
  {
    var s' := Step(s, a).value;
    var e := s.sessions[c].egress;
    StepKeeps(s, a);
    assert E.Inv(e) && E.OpeningsOk(e) && E.Extends(e, s'.sessions[c].egress);
    if a.ServerReceives? && a.c == c {
      ReceivingIsExact(e, a.datagram);
    } else {
      QuietForEgress(s, a, c);
      E.OpeningsCarry(e, s'.sessions[c].egress);
    }
    E.SingleExactly(e, s'.sessions[c].egress);
  }

  lemma QuietForEgress(s: System, a: Action, c: nat)
    requires Step(s, a).Some? && c < |s.sessions| && !(a.ServerReceives? && a.c == c)
    ensures var s' := Step(s, a).value;
            && c < |s'.sessions|
            && s'.sessions[c].egress.openings == s.sessions[c].egress.openings
            && |s'.sessions[c].egress.streams| == |s.sessions[c].egress.streams|
  {
    if a.OnEgress? {
      E.StepFrame(s.sessions[a.c].egress, a.e);
      E.StepKeepsOpenings(s.sessions[a.c].egress, a.e);
    }
  }

  lemma StepKeepsOpenings(s: System, a: Action)
    requires Inv(s) && AllOpeningsOk(s) && Step(s, a).Some?
    ensures AllOpeningsOk(Step(s, a).value)
  {
    var s' := Step(s, a).value;
    forall c | 0 <= c < |s'.sessions| ensures E.OpeningsOk(s'.sessions[c].egress) {
      if c < |s.sessions| {
        ReopeningIsExact(s, a, c);
      } else {
        NewSessionIsEmpty(s, a, c);
      }
    }
  }

  lemma NewSessionIsEmpty(s: System, a: Action, c: nat)
    requires Step(s, a).Some? && |s.sessions| <= c < |Step(s, a).value.sessions|
    ensures Step(s, a).value.sessions[c].egress == E.Empty
  {
    assert a.NewSession?;
  }

  /** No step of a run re-opens an id in session c. */
  ghost predicate NeverReopens(s: System, actions: seq<Action>, c: nat)
    decreases |actions|
  {
    actions == [] ||
    (!ReopensAt(s, c, actions[0]) && (Step(s, actions[0]).Some? ==> NeverReopens(Step(s, actions[0]).value, actions[1..], c)))
  }

  lemma {:induction false} SingleWhileNeverReopened(s: System, actions: seq<Action>, c: nat)
    requires Inv(s) && AllOpeningsOk(s) && Execute(s, actions).Some?
    ensures Single(Execute(s, actions).value, c) <==> Single(s, c) && NeverReopens(s, actions, c)
    decreases |actions|
  {
    if actions != [] {
      var s1 := Step(s, actions[0]).value;
      StepKeeps(s, actions[0]);
      StepKeepsOpenings(s, actions[0]);
      SingleWhileNeverReopened(s1, actions[1..], c);
      if c < |s.sessions| {
        ReopeningIsExact(s, actions[0], c);
      } else if c < |s1.sessions| {
        NewSessionIsEmpty(s, actions[0], c);
      }
    }
  }

  /** In every run, the ids of a session's upstream connections are distinct if and only if it never took an open
      frame for an id opened before and no longer open. */
  lemma SingleExactly(actions: seq<Action>, c: nat)
    requires Execute(Start, actions).Some? && c < |Execute(Start, actions).value.sessions|
    ensures E.SingleUpstream(Execute(Start, actions).value.sessions[c].egress) <==> NeverReopens(Start, actions, c)
  {
    StartOk();
    SingleWhileNeverReopened(Start, actions, c);
  }

  /** Handing over each open frame at most once is enough, but more than is needed: a repeated open frame for an
      id still open is refused. */
  lemma OpenedOnceNeverReopens(actions: seq<Action>, c: nat)
    requires Execute(Start, actions).Some? && c < |Execute(Start, actions).value.sessions|
    requires !E.Repeats(Execute(Start, actions).value.sessions[c].egress.openings)
    ensures NeverReopens(Start, actions, c)
  {
    StartOk();
    RunKeeps(Start, actions);
    E.OpenedOnceIsSingle(Execute(Start, actions).value.sessions[c].egress);
    SingleExactly(actions, c);
  }
}
