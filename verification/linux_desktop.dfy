/** The host and the Linux TUN controller, which keep in step about one native attempt. */
module LinuxDesktop {
  import opened Wrappers
  import opened PlatformTunnel

  /** The controller: attempts are numbered, and at most one is active. */
  datatype LinuxTun = LinuxTun(attemptSeq: nat, active: Option<nat>)

  /** `begun` lists every attempt started so far; `stranded` says that a failed start's cleanup failed as well and
      nothing was stopped since. */
  datatype Desktop = Desktop(host: Host, tun: LinuxTun, begun: seq<nat>, stranded: bool)

  /** What the environment does to a start: whether the host lets it through and the controller has a plan for it,
      the lease, the native start, its evidence, the publication of a session, and a cleanup if there is one. */
  datatype StartEnv = StartEnv(
    admitted: bool,
    planned: bool,
    leaseFails: Option<LeaseFailure>,
    nativeFails: Option<Stage>,
    evidence: Option<Evidence>,
    session: Option<string>,
    stops: bool)

  datatype LeaseFailure = ProfileFailure | OtherFailure

  function LeaseStage(f: LeaseFailure): Stage { if f.ProfileFailure? then ProfileValidate else RuntimeAttach }

  /** The controller's idea of which failures the host will clean up. */
  predicate StageNeedsCleanup(stage: Stage) {
    match stage
    case RouteValidate | HostBringup | RuntimeAttach | DataplaneVerify => true
    case _ => false
  }

  function Begin(c: LinuxTun): Option<LinuxTun> {
    if c.active.Some? then None else Some(LinuxTun(c.attemptSeq + 1, Some(c.attemptSeq + 1)))
  }

  function End(c: LinuxTun, attempt: Option<nat>): LinuxTun {
    if attempt.Some? && c.active == attempt then c.(active := None) else c
  }

  /** A native failure that the host will not clean up ends its attempt at once. */
  function ControllerStart(c: LinuxTun, mode: string, env: StartEnv): (LinuxTun, StartResult) {
    if mode != LINUX_TUN || !env.planned then (c, Failed(mode, CapabilityCheck))
    else if env.leaseFails.Some? then (c, Failed(mode, LeaseStage(env.leaseFails.value)))
    else if Begin(c).None? then (c, Failed(mode, CapabilityCheck))
    else
      var c1 := Begin(c).value;
      if env.nativeFails.Some? then
        (if StageNeedsCleanup(env.nativeFails.value) then c1 else End(c1, c1.active), Failed(mode, env.nativeFails.value))
      else if !Verified(env.evidence) then (c1, Failed(mode, DataplaneVerify))
      else (c1, StartResult(mode, true, DataplaneVerify, "", env.evidence))
  }

  function ControllerStop(c: LinuxTun, mode: string, stops: bool): Option<LinuxTun> {
    if mode != LINUX_TUN || !stops then None else Some(End(c, c.active))
  }

  /** Also the host's cleanup of a failed start. */
  function Stop(d: Desktop, mode: string, stops: bool): Desktop {
    match ControllerStop(d.tun, mode, stops)
    case None => d
    case Some(tun) => Desktop(AfterStop(d.host, mode), tun, d.begun, false)
  }

  function FinalizeFailure(d: Desktop, r: StartResult, stops: bool): Desktop {
    var d1 := d.(host := Remembered(d.host, r.startupAttempt, r.mode));
    if FailureNeedsCleanup(r.stage) then Stop(d1, r.mode, stops) else d1
  }

  function Start(d: Desktop, mode: string, env: StartEnv): Desktop {
    if !env.admitted then d else
    var (tun, r) := ControllerStart(d.tun, mode, env);
    var begins := tun.attemptSeq != d.tun.attemptSeq;
    var d1 := d.(tun := tun, begun := if begins then d.begun + [tun.attemptSeq] else d.begun,
                 stranded := d.stranded || (begins && !(r.ready && env.session.Some?) && tun.active.Some?));
    Finalized(d1, mode, r, env)
  }

  /** What the host makes of the controller's answer. */
  function Finalized(d: Desktop, mode: string, r: StartResult, env: StartEnv): Desktop {
    if !r.ready then FinalizeFailure(d, r, env.stops)
    else if !ReadyEvidenceOk(mode, r.evidence) then FinalizeFailure(d, Failed(mode, DataplaneVerify), env.stops)
    else if env.session.None? then Stop(d, mode, env.stops)
    else d.(host := d.host.(sessions := Published(d.host.sessions, mode, env.session.value)))
  }

  datatype Call = StartCall(mode: string, env: StartEnv) | StopCall(mode: string, stops: bool)

  function Serve(d: Desktop, c: Call): Desktop {
    match c
    case StartCall(mode, env) => Start(d, mode, env)
    case StopCall(mode, stops) => Stop(d, mode, stops)
  }

  function ServeAll(d: Desktop, calls: seq<Call>): Desktop
    decreases |calls|
  {
    if calls == [] then d else ServeAll(Serve(d, calls[0]), calls[1..])
  }

  const FRESH := Desktop(Host(map[], map[]), LinuxTun(0, None), [], false)

  ghost predicate LinuxLive(d: Desktop) { Live(d.host.sessions, LINUX_TUN) }

  ghost predicate Inv(d: Desktop) {
    && SessionsOk(d.host.sessions)
    && (d.tun.active.Some? <==> LinuxLive(d) || d.stranded)
    && !(LinuxLive(d) && d.stranded)
    && (forall i, j :: 0 <= i < j < |d.begun| ==> d.begun[i] < d.begun[j])
    && (forall i :: 0 <= i < |d.begun| ==> d.begun[i] <= d.tun.attemptSeq)
    && (d.tun.active.Some? ==> d.begun != [] && d.begun[|d.begun| - 1] == d.tun.active.value)
  }

  lemma StopKeeps(d: Desktop, mode: string, stops: bool)
    requires SessionsOk(d.host.sessions)
    ensures SessionsOk(Stop(d, mode, stops).host.sessions)
    ensures mode == LINUX_TUN && stops ==> !LinuxLive(Stop(d, mode, stops)) && Stop(d, mode, stops).tun.active.None?
  {
    MarkedEnds(d.host.sessions, mode);
  }

  lemma StopKeepsInv(d: Desktop, mode: string, stops: bool)
    requires Inv(d)
    ensures Inv(Stop(d, mode, stops))
  {
    StopKeeps(d, mode, stops);
  }

  /** The attempt just begun, before anything came of it. */
  function WithAttempt(d: Desktop): Desktop {
    var n := d.tun.attemptSeq + 1;
    Desktop(d.host, LinuxTun(n, Some(n)), d.begun + [n], true)
  }

  lemma WithAttemptOk(d: Desktop)
    requires Inv(d) && d.tun.active.None?
    ensures Inv(WithAttempt(d))
  {
  }

  const PROVEN := Some(Evidence(true, true, true))

  /** What becomes of an attempt. A native failure ends it at once, or is cleaned up by a stop if it came late enough to
      leave something behind; so is a start without all three kinds of evidence, or without a session. Otherwise the
      attempt becomes a session. */
  lemma AttemptOutcomes(d: Desktop, env: StartEnv)
    requires env.admitted && env.planned && env.leaseFails.None? && d.tun.active.None?
    ensures var d1 := WithAttempt(d);
            Start(d, LINUX_TUN, env) ==
            if env.nativeFails.Some? && env.nativeFails.value !in {RouteValidate, HostBringup, RuntimeAttach, DataplaneVerify} then
              d1.(tun := d1.tun.(active := None), stranded := d.stranded)
            else if env.nativeFails.Some? || env.evidence != PROVEN || env.session.None? then Stop(d1, LINUX_TUN, env.stops)
            else d1.(host := d1.host.(sessions := Published(d1.host.sessions, LINUX_TUN, env.session.value)), stranded := d.stranded)
  {
    EvidenceIsAll(env.evidence);
  }

  lemma EvidenceIsAll(e: Option<Evidence>)
    ensures Verified(e) <==> e == PROVEN
  {
    assert e.Some? ==> e.value == Evidence(e.value.hostAttached, e.value.handshakeFresh, e.value.bidirectional);
  }

  /** The host publishes a desktop tunnel, whatever controller it comes from, exactly if it is ready, proven in all three
      respects, and has a session. */
  lemma HostChecksEvidence(d: Desktop, mode: string, r: StartResult, env: StartEnv)
    requires SessionsOk(d.host.sessions) && mode in {LINUX_TUN, WINDOWS_WINTUN} && !Live(d.host.sessions, mode)
    ensures Live(Finalized(d, mode, r, env).host.sessions, mode) <==> r.ready && r.evidence == PROVEN && env.session.Some?
  {
    EvidenceIsAll(r.evidence);
    if r.ready && r.evidence == PROVEN && env.session.Some? {
      PublishedLives(d.host.sessions, mode, env.session.value);
    } else if !r.ready || r.evidence != PROVEN {
      FailureStartsNothing(d, if r.ready then Failed(mode, DataplaneVerify) else r, env.stops, mode);
    } else {
      StopStartsNothing(d, mode, env.stops, mode);
    }
  }

  lemma StopStartsNothing(d: Desktop, stopped: string, stops: bool, mode: string)
    requires SessionsOk(d.host.sessions) && !Live(d.host.sessions, mode)
    ensures !Live(Stop(d, stopped, stops).host.sessions, mode)
  {
    MarkedEnds(d.host.sessions, stopped);
  }

  lemma FailureStartsNothing(d: Desktop, r: StartResult, stops: bool, mode: string)
    requires SessionsOk(d.host.sessions) && !Live(d.host.sessions, mode)
    ensures !Live(FinalizeFailure(d, r, stops).host.sessions, mode)
  {
    StopStartsNothing(d.(host := Remembered(d.host, r.startupAttempt, r.mode)), r.mode, stops, mode);
  }

  /** What becomes of a start that begins no attempt. */
  lemma RefusedStarts(d: Desktop, mode: string, env: StartEnv)
    requires !env.admitted || mode != LINUX_TUN || !env.planned || env.leaseFails.Some? || d.tun.active.Some?
    ensures Start(d, mode, env) ==
            if env.admitted && mode == LINUX_TUN && env.planned && env.leaseFails == Some(OtherFailure) then Stop(d, LINUX_TUN, env.stops)
            else d
  {
  }

  /** A stop that succeeds takes the attempt, the mode's pending requests and its session away; any other changes nothing. */
  lemma StopOutcome(d: Desktop, mode: string, stops: bool)
    requires SessionsOk(d.host.sessions)
    ensures var d' := Stop(d, mode, stops);
            if mode == LINUX_TUN && stops then
              !LinuxLive(d') && d'.tun.active.None? && forall id :: id in d'.host.requests ==> d'.host.requests[id] != LINUX_TUN
            else d' == d
  {
    MarkedEnds(d.host.sessions, mode);
  }

  /** Everything a start needs to end in a session. */
  predicate Succeeds(env: StartEnv) {
    env.admitted && env.planned && env.leaseFails.None? && env.nativeFails.None? && env.evidence == PROVEN && env.session.Some?
  }

  lemma StartPublishes(d: Desktop, env: StartEnv)
    requires Inv(d) && !LinuxLive(d)
    ensures var d' := Start(d, LINUX_TUN, env);
            && (LinuxLive(d') <==> Succeeds(env) && d.tun.active.None?)
            && (LinuxLive(d') ==> env.session.value in d'.host.sessions && d'.tun.active == Some(d.tun.attemptSeq + 1)
                                  && d'.host.sessions[env.session.value] == Session(LINUX_TUN, false, 0))
  {
    if env.admitted && env.planned && env.leaseFails.None? && d.tun.active.None? {
      AttemptOutcomes(d, env);
      StopKeeps(WithAttempt(d), LINUX_TUN, env.stops);
      StopOutcome(WithAttempt(d), LINUX_TUN, env.stops);
      if env.session.Some? {
        PublishedLives(d.host.sessions, LINUX_TUN, env.session.value);
      }
    } else {
      RefusedStarts(d, LINUX_TUN, env);
      StopOutcome(d, LINUX_TUN, env.stops);
    }
  }

  lemma AttemptEndsOk(d: Desktop)
    requires Inv(d) && d.tun.active.None?
    ensures var d1 := WithAttempt(d); Inv(d1.(tun := d1.tun.(active := None), stranded := d.stranded))
  {
  }

  lemma AttemptPublishesOk(d: Desktop, id: string)
    requires Inv(d) && d.tun.active.None?
    ensures var d1 := WithAttempt(d);
            Inv(d1.(host := d1.host.(sessions := Published(d1.host.sessions, LINUX_TUN, id)), stranded := d.stranded))
  {
    PublishedLives(d.host.sessions, LINUX_TUN, id);
  }

  lemma StartKeeps(d: Desktop, mode: string, env: StartEnv)
    requires Inv(d)
    ensures Inv(Start(d, mode, env))
  {
    if env.admitted && mode == LINUX_TUN && env.planned && env.leaseFails.None? && d.tun.active.None? {
      WithAttemptOk(d);
      AttemptOutcomes(d, env);
      AttemptEndsOk(d);
      StopKeepsInv(WithAttempt(d), LINUX_TUN, env.stops);
      if env.session.Some? {
        AttemptPublishesOk(d, env.session.value);
      }
    } else {
      RefusedStarts(d, mode, env);
      StopKeepsInv(d, LINUX_TUN, env.stops);
    }
  }

  lemma ServeKeeps(d: Desktop, c: Call)
    requires Inv(d)
    ensures Inv(Serve(d, c))
  {
    match c
    case StartCall(mode, env) => StartKeeps(d, mode, env);
    case StopCall(mode, stops) => StopKeeps(d, mode, stops);
  }

  lemma {:induction false} ServeAllKeeps(d: Desktop, calls: seq<Call>)
    requires Inv(d)
    ensures Inv(ServeAll(d, calls))
    decreases |calls|
  {
    if calls != [] {
      ServeKeeps(d, calls[0]);
      ServeAllKeeps(Serve(d, calls[0]), calls[1..]);
    }
  }

  /** No stop that a call leads to fails. */
  predicate StopsSucceed(calls: seq<Call>) {
    forall i :: 0 <= i < |calls| ==> if calls[i].StartCall? then calls[i].env.stops else calls[i].stops
  }

  lemma {:induction false} NeverStranded(d: Desktop, calls: seq<Call>)
    requires !d.stranded && StopsSucceed(calls)
    ensures !ServeAll(d, calls).stranded
    decreases |calls|
  {
    if calls != [] {
      forall i | 0 <= i < |calls[1..]| ensures calls[1..][i] == calls[i + 1] {
      }
      NeverStranded(Serve(d, calls[0]), calls[1..]);
    }
  }

  /** After every sequence of calls: a session in progress has its active attempt, whatever failed. An active attempt
      without a session is exactly one stranded by a failed cleanup, so with stops that succeed the two agree. No
      attempt number is used twice. */
  lemma HostAndControllerAgree(calls: seq<Call>)
    ensures var d := ServeAll(FRESH, calls);
            && SessionsOk(d.host.sessions)
            && (LinuxLive(d) ==> d.tun.active.Some?)
            && (d.tun.active.Some? && !LinuxLive(d) <==> d.stranded)
            && (StopsSucceed(calls) ==> (d.tun.active.Some? <==> LinuxLive(d)))
            && (forall i, j :: 0 <= i < j < |d.begun| ==> d.begun[i] != d.begun[j])
  {
    ServeAllKeeps(FRESH, calls);
    if StopsSucceed(calls) {
      NeverStranded(FRESH, calls);
    }
  }

  /** After any sequence of calls that leaves no tunnel running: a start ends in a running one if and only if it gets
      through the host and the controller with a lease and no stranded attempt is in the way, the native start succeeds,
      the data plane is proven in all three respects, and there is a session. Then this is the session, and its attempt is
      the new one. */
  lemma SessionsNeedEvidence(calls: seq<Call>, env: StartEnv)
    requires !LinuxLive(ServeAll(FRESH, calls))
    ensures var d := ServeAll(FRESH, calls); var d' := Start(d, LINUX_TUN, env);
            && (LinuxLive(d') <==>
                  && env.admitted && env.planned && env.leaseFails.None? && !d.stranded && env.nativeFails.None?
                  && env.evidence.Some? && env.evidence.value.hostAttached && env.evidence.value.handshakeFresh
                  && env.evidence.value.bidirectional && env.session.Some?)
            && (LinuxLive(d') ==> env.session.value in d'.host.sessions && !d'.host.sessions[env.session.value].terminal
                                  && d'.tun.active == Some(d.tun.attemptSeq + 1))
  {
    ServeAllKeeps(FRESH, calls);
    EvidenceIsAll(env.evidence);
    StartPublishes(ServeAll(FRESH, calls), env);
  }

  lemma StartBesideOne(d: Desktop, env: StartEnv)
    requires Inv(d) && LinuxLive(d) && env.admitted
    ensures var lost := env.planned && env.leaseFails == Some(OtherFailure) && env.stops;
            Start(d, LINUX_TUN, env) == if lost then Stop(d, LINUX_TUN, true) else d
  {
  }

  /** A second start leaves a running tunnel alone unless it fails to get its lease for a reason other than the
      profile: then the host cleans up, and the running tunnel is what goes. */
  lemma SecondStart(calls: seq<Call>, env: StartEnv)
    requires LinuxLive(ServeAll(FRESH, calls)) && env.admitted
    ensures var d := ServeAll(FRESH, calls); var d' := Start(d, LINUX_TUN, env);
            var lost := env.planned && env.leaseFails == Some(OtherFailure) && env.stops;
            && (LinuxLive(d') <==> !lost)
            && (d'.tun.active == if lost then None else d.tun.active)
            && (!lost ==> d' == d)
  {
    ServeAllKeeps(FRESH, calls);
    StartBesideOne(ServeAll(FRESH, calls), env);
    StopKeeps(ServeAll(FRESH, calls), LINUX_TUN, true);
  }
}
