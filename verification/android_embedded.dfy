/** The host and the Android VPN service controller, which keep in step about startups that wait for permission. */
module AndroidEmbedded {
  import opened Wrappers
  import opened PlatformTunnel

  datatype Permission = Granted | Pending(requestedId: string) | Denied

  /** What the environment does to a startup; `fails` is the stage at which finishing it fails. */
  datatype StartEnv = StartEnv(
    admitted: bool,
    planned: bool,
    permission: Permission,
    fails: Option<Stage>,
    session: Option<string>,
    stops: bool)

  /** The controller: pending attempts with the mode they were made for, and the number of the last id it made up. */
  datatype VpnService = VpnService(attempts: map<string, string>, nextId: nat)

  /** How often an attempt id was stored, and how often it led to a published session, is only remembered. */
  datatype Phone = Phone(host: Host, vpn: VpnService, stored: multiset<string>, published: multiset<string>)

  function Digits(n: nat): (s: string)
    ensures |s| > 0 && (n < 10 <==> |s| == 1)
  {
    if n < 10 then [['0', '1', '2', '3', '4', '5', '6', '7', '8', '9'][n]] else Digits(n / 10) + Digits(n % 10)
  }

  function MadeUpId(n: nat): string { "android-vpn-startup-" + Digits(n) }

  /** The id an attempt is stored under: the one asked for, or a made-up one. */
  function AttemptId(c: VpnService, requestedId: string): string {
    if requestedId == "" then MadeUpId(c.nextId + 1) else requestedId
  }

  function Store(c: VpnService, requestedId: string, mode: string): VpnService {
    VpnService(c.attempts[AttemptId(c, requestedId) := mode], if requestedId == "" then c.nextId + 1 else c.nextId)
  }

  function Finish(mode: string, env: StartEnv): StartResult {
    if env.fails.Some? then Failed(mode, env.fails.value) else StartResult(mode, true, Unlisted(""), "", None)
  }

  function ControllerStart(c: VpnService, mode: string, env: StartEnv): (VpnService, StartResult) {
    if mode != ANDROID_VPN_SERVICE || !env.planned then (c, Failed(mode, CapabilityCheck)) else
    match env.permission
    case Denied => (c, Failed(mode, PermissionAcquire))
    case Pending(id) => (Store(c, id, mode), StartResult(mode, false, PermissionAcquire, AttemptId(c, id), None))
    case Granted => (c, Finish(mode, env))
  }

  /** None when there is no such attempt. An attempt is taken before anything can fail. */
  function ControllerResume(c: VpnService, id: string, env: StartEnv): Option<(VpnService, StartResult)> {
    if id !in c.attempts then None else
    var mode := c.attempts[id];
    Some((c.(attempts := c.attempts - {id}), if env.permission.Granted? then Finish(mode, env) else Failed(mode, PermissionAcquire)))
  }

  function ControllerStop(c: VpnService, mode: string, stops: bool): Option<VpnService> {
    if mode != ANDROID_VPN_SERVICE || !stops then None else Some(c.(attempts := map[]))
  }

  function Stop(p: Phone, mode: string, stops: bool): Phone {
    match ControllerStop(p.vpn, mode, stops)
    case None => p
    case Some(vpn) => p.(host := AfterStop(p.host, mode), vpn := vpn)
  }

  function FinalizeFailure(p: Phone, remember: bool, r: StartResult, mode: string, stops: bool): Phone {
    var p1 := if remember then p.(host := Remembered(p.host, r.startupAttempt, mode)) else p;
    if FailureNeedsCleanup(r.stage) then Stop(p1, r.mode, stops) else p1
  }

  /** A ready result becomes a session, or is cleaned up. */
  function PublishReady(p: Phone, mode: string, env: StartEnv): Phone {
    if env.session.None? then Stop(p, mode, env.stops)
    else p.(host := p.host.(sessions := Published(p.host.sessions, mode, env.session.value)))
  }

  function Start(p: Phone, mode: string, env: StartEnv): Phone {
    if !env.admitted then p else
    var (vpn, r) := ControllerStart(p.vpn, mode, env);
    var p1 := p.(vpn := vpn, stored := if r.startupAttempt != "" then p.stored + multiset{r.startupAttempt} else p.stored);
    if !r.ready then FinalizeFailure(p1, true, r, mode, env.stops)
    else if !ReadyEvidenceOk(mode, r.evidence) then FinalizeFailure(p1, true, Failed(mode, DataplaneVerify), mode, env.stops)
    else PublishReady(p1, mode, env)
  }

  /** The host takes its request first, then asks the controller. */
  function Resume(p: Phone, id: string, env: StartEnv): Phone {
    if id == "" then p else
    var request := if id in p.host.requests then Some(p.host.requests[id]) else None;
    var p1 := p.(host := p.host.(requests := p.host.requests - {id}));
    match ControllerResume(p1.vpn, id, env)
    case None => p1
    case Some((vpn, r)) => FinalizeResumed(p1.(vpn := vpn), id, request, r, env)
  }

  function FinalizeResumed(p: Phone, id: string, request: Option<string>, r: StartResult, env: StartEnv): Phone {
    if !r.ready then FinalizeFailure(p, request.Some?, r, if request.Some? then request.value else "", env.stops)
    else if request.None? then Stop(p, r.mode, env.stops)
    else if !ReadyEvidenceOk(request.value, r.evidence) then
      FinalizeFailure(p, true, Failed(r.mode, DataplaneVerify), request.value, env.stops)
    else
      var p1 := PublishReady(p, request.value, env);
      if env.session.Some? then p1.(published := p1.published + multiset{id}) else p1
  }

  datatype Call =
    | StartCall(mode: string, env: StartEnv)
    | ResumeCall(id: string, env: StartEnv)
    | StopCall(mode: string, stops: bool)

  function Serve(p: Phone, c: Call): Phone {
    match c
    case StartCall(mode, env) => Start(p, mode, env)
    case ResumeCall(id, env) => Resume(p, id, env)
    case StopCall(mode, stops) => Stop(p, mode, stops)
  }

  function ServeAll(p: Phone, calls: seq<Call>): Phone
    decreases |calls|
  {
    if calls == [] then p else ServeAll(Serve(p, calls[0]), calls[1..])
  }

  const FRESH := Phone(Host(map[], map[]), VpnService(map[], 0), multiset{}, multiset{})

  /** The controller's pending attempts are the host's startup requests, all of the one mode, and no id was published
      more often than it was stored and is no longer pending. */
  ghost predicate Inv(p: Phone) {
    && SessionsOk(p.host.sessions)
    && p.vpn.attempts == p.host.requests
    && (forall id :: id in p.vpn.attempts ==> p.vpn.attempts[id] == ANDROID_VPN_SERVICE)
    && (forall id :: p.published[id] + (if id in p.vpn.attempts then 1 else 0) <= p.stored[id])
  }

  lemma StopKeeps(p: Phone, mode: string, stops: bool)
    requires Inv(p)
    ensures Inv(Stop(p, mode, stops))
  {
    MarkedEnds(p.host.sessions, mode);
    if mode == ANDROID_VPN_SERVICE && stops {
      assert Cleared(p.host.requests, mode) == map[];
    }
  }

  lemma PublishKeeps(p: Phone, mode: string, env: StartEnv)
    requires Inv(p)
    ensures Inv(PublishReady(p, mode, env)) && PublishReady(p, mode, env).published == p.published
    ensures PublishReady(p, mode, env).stored == p.stored
    ensures PublishReady(p, mode, env).vpn.attempts.Keys <= p.vpn.attempts.Keys
  {
    if env.session.None? {
      StopKeeps(p, mode, env.stops);
    } else {
      PublishedLives(p.host.sessions, mode, env.session.value);
    }
  }

  /** A startup that waits for permission is noted on both sides under the same id. */
  lemma PendingKeeps(p: Phone, env: StartEnv)
    requires Inv(p) && env.admitted && env.planned && env.permission.Pending?
    ensures var id := AttemptId(p.vpn, env.permission.requestedId); var p' := Start(p, ANDROID_VPN_SERVICE, env);
            Inv(p') && id in p'.vpn.attempts && p'.host.sessions == p.host.sessions
  {
    var id := AttemptId(p.vpn, env.permission.requestedId);
    assert Start(p, ANDROID_VPN_SERVICE, env).host.requests == p.host.requests[id := ANDROID_VPN_SERVICE];
  }

  /** Any other startup changes nothing, amounts to a stop, or publishes a session. */
  lemma OtherStarts(p: Phone, mode: string, env: StartEnv)
    requires env.permission.Pending? ==> mode != ANDROID_VPN_SERVICE || !env.planned || !env.admitted
    ensures Start(p, mode, env) == p || Start(p, mode, env) == Stop(p, mode, env.stops) || Start(p, mode, env) == PublishReady(p, mode, env)
  {
  }

  lemma StartKeeps(p: Phone, mode: string, env: StartEnv)
    requires Inv(p)
    ensures Inv(Start(p, mode, env))
  {
    if env.permission.Pending? && env.admitted && env.planned && mode == ANDROID_VPN_SERVICE {
      PendingKeeps(p, env);
    } else {
      OtherStarts(p, mode, env);
      StopKeeps(p, mode, env.stops);
      PublishKeeps(p, mode, env);
    }
  }

  /** The state in which a resume of a pending id goes on: neither side has it any more. */
  function Taken(p: Phone, id: string): Phone {
    p.(host := p.host.(requests := p.host.requests - {id}), vpn := p.vpn.(attempts := p.vpn.attempts - {id}))
  }

  lemma TakenKeeps(p: Phone, id: string)
    requires Inv(p)
    ensures Inv(Taken(p, id))
  {
  }

  lemma FinishedOutcomes(p: Phone, id: string, env: StartEnv, r: StartResult)
    requires r == Failed(ANDROID_VPN_SERVICE, PermissionAcquire) || r == Finish(ANDROID_VPN_SERVICE, env)
    ensures var p' := FinalizeResumed(p, id, Some(ANDROID_VPN_SERVICE), r, env);
            var p1 := PublishReady(p, ANDROID_VPN_SERVICE, env);
            || p' == p
            || p' == Stop(p, ANDROID_VPN_SERVICE, env.stops)
            || p' == p1
            || p' == p1.(published := p1.published + multiset{id})
  {
  }

  /** What a resume of a pending id comes to once both sides have given it out. */
  lemma ResumeOutcomes(p: Phone, id: string, env: StartEnv)
    requires Inv(p) && id in p.vpn.attempts && id != ""
    ensures var p' := Resume(p, id, env);
            var p1 := PublishReady(Taken(p, id), ANDROID_VPN_SERVICE, env);
            || p' == Taken(p, id)
            || p' == Stop(Taken(p, id), ANDROID_VPN_SERVICE, env.stops)
            || p' == p1
            || p' == p1.(published := p1.published + multiset{id})
  {
    var r := if env.permission.Granted? then Finish(ANDROID_VPN_SERVICE, env) else Failed(ANDROID_VPN_SERVICE, PermissionAcquire);
    FinishedOutcomes(Taken(p, id), id, env, r);
  }

  /** An id that neither side has any more was stored once more often than it was published. */
  lemma PublishedCountKeeps(p: Phone, id: string, p1: Phone)
    requires Inv(p) && id in p.vpn.attempts
    requires Inv(p1) && p1.stored == p.stored && p1.published == p.published && id !in p1.vpn.attempts
    ensures Inv(p1.(published := p1.published + multiset{id}))
  {
  }

  lemma ResumeKeeps(p: Phone, id: string, env: StartEnv)
    requires Inv(p)
    ensures Inv(Resume(p, id, env))
  {
    if id in p.vpn.attempts && id != "" {
      var taken := Taken(p, id);
      TakenKeeps(p, id);
      StopKeeps(taken, ANDROID_VPN_SERVICE, env.stops);
      PublishKeeps(taken, ANDROID_VPN_SERVICE, env);
      PublishedCountKeeps(p, id, PublishReady(taken, ANDROID_VPN_SERVICE, env));
      ResumeOutcomes(p, id, env);
    } else {
      assert p.host.requests - {id} == p.host.requests || id == "";
    }
  }

  ghost predicate AndroidLive(p: Phone) { Live(p.host.sessions, ANDROID_VPN_SERVICE) }

  /** The runtime comes up with permission granted, and there is a session. */
  predicate ComesUp(env: StartEnv) { env.permission.Granted? && env.fails.None? && env.session.Some? }

  /** A stop that succeeds takes pending attempts, requests and the session away; any other changes nothing. */
  lemma StopOutcome(p: Phone, mode: string, stops: bool)
    requires Inv(p)
    ensures var p' := Stop(p, mode, stops);
            && p'.published == p.published
            && if mode == ANDROID_VPN_SERVICE && stops then !AndroidLive(p') && p'.vpn.attempts == map[] == p'.host.requests
               else p' == p
  {
    StopKeeps(p, mode, stops);
    MarkedEnds(p.host.sessions, mode);
  }

  lemma PublishOutcome(p: Phone, env: StartEnv)
    requires Inv(p)
    ensures var p' := PublishReady(p, ANDROID_VPN_SERVICE, env);
            && (env.session.Some? ==> AndroidLive(p') && env.session.value in p'.host.sessions
                                      && p'.host.sessions[env.session.value] == Session(ANDROID_VPN_SERVICE, false, 0))
            && (env.session.None? && !AndroidLive(p) ==> !AndroidLive(p'))
  {
    if env.session.Some? {
      PublishedLives(p.host.sessions, ANDROID_VPN_SERVICE, env.session.value);
    } else {
      StopOutcome(p, ANDROID_VPN_SERVICE, env.stops);
    }
  }

  /** A startup that does not wait for permission becomes a session, is cleaned up by a stop if it failed late enough to
      leave something behind, or changes nothing. */
  lemma StartOutcomes(p: Phone, env: StartEnv)
    requires !env.permission.Pending?
    ensures Start(p, ANDROID_VPN_SERVICE, env) ==
            if !env.admitted || !env.planned || env.permission.Denied? then p
            else if env.fails.Some? then
              (if env.fails.value in {RouteValidate, HostBringup, RuntimeAttach, DataplaneVerify} then Stop(p, ANDROID_VPN_SERVICE, env.stops)
               else p)
            else PublishReady(p, ANDROID_VPN_SERVICE, env)
  {
  }

  /** With no tunnel running, a startup ends in a running one exactly if it gets through, has its permission, comes up
      and has a session. */
  lemma StartPublishes(p: Phone, env: StartEnv)
    requires Inv(p) && !AndroidLive(p)
    ensures var p' := Start(p, ANDROID_VPN_SERVICE, env);
            && (AndroidLive(p') <==> env.admitted && env.planned && ComesUp(env))
            && (AndroidLive(p') ==> env.session.value in p'.host.sessions && !p'.host.sessions[env.session.value].terminal)
  {
    if env.permission.Pending? {
      if env.admitted && env.planned {
        PendingKeeps(p, env);
      }
    } else {
      StartOutcomes(p, env);
      StopOutcome(p, ANDROID_VPN_SERVICE, env.stops);
      PublishOutcome(p, env);
    }
  }

  /** What a resume makes of a pending id. */
  lemma TakenOutcomes(p: Phone, id: string, env: StartEnv)
    requires Inv(p) && id in p.vpn.attempts && id != ""
    ensures Resume(p, id, env) ==
            var p1 := Taken(p, id);
            if !env.permission.Granted? then p1
            else if env.fails.Some? then
              (if env.fails.value in {RouteValidate, HostBringup, RuntimeAttach, DataplaneVerify} then Stop(p1, ANDROID_VPN_SERVICE, env.stops)
               else p1)
            else
              var p2 := PublishReady(p1, ANDROID_VPN_SERVICE, env);
              if env.session.Some? then p2.(published := p2.published + multiset{id}) else p2
  {
  }

  /** A resume of a pending id takes it up; the id leads to a session exactly if the runtime comes up with permission
      granted and there is a session. An id that is not pending changes nothing. */
  lemma ResumePublishes(p: Phone, id: string, env: StartEnv)
    requires Inv(p) && id != ""
    ensures var p' := Resume(p, id, env);
            && (id !in p.vpn.attempts ==> p' == p)
            && (id in p.vpn.attempts ==>
                  && id !in p'.vpn.attempts
                  && p'.published == (if ComesUp(env) then p.published + multiset{id} else p.published)
                  && (ComesUp(env) ==> env.session.value in p'.host.sessions && !p'.host.sessions[env.session.value].terminal)
                  && (!AndroidLive(p) ==> (AndroidLive(p') <==> ComesUp(env))))
  {
    if id in p.vpn.attempts {
      TakenOutcomes(p, id, env);
      TakenKeeps(p, id);
      StopOutcome(Taken(p, id), ANDROID_VPN_SERVICE, env.stops);
      PublishOutcome(Taken(p, id), env);
      PublishKeeps(Taken(p, id), ANDROID_VPN_SERVICE, env);
    } else {
      assert p.host.requests - {id} == p.host.requests;
    }
  }

  /** After any calls: a startup that waits for permission, and is resumed when that is granted and the runtime comes
      up, ends in a running session. */
  lemma PendingThenResumed(calls: seq<Call>, env: StartEnv, resumed: StartEnv)
    requires env.admitted && env.planned && env.permission.Pending? && ComesUp(resumed)
    ensures var p := ServeAll(FRESH, calls);
            var p' := Resume(Start(p, ANDROID_VPN_SERVICE, env), AttemptId(p.vpn, env.permission.requestedId), resumed);
            && AndroidLive(p') && resumed.session.value in p'.host.sessions && !p'.host.sessions[resumed.session.value].terminal
            && AttemptId(p.vpn, env.permission.requestedId) in p'.published
  {
    var p := ServeAll(FRESH, calls);
    ServeAllKeeps(FRESH, calls);
    PendingKeeps(p, env);
    var p1, id := Start(p, ANDROID_VPN_SERVICE, env), AttemptId(p.vpn, env.permission.requestedId);
    ResumePublishes(p1, id, resumed);
    TakenOutcomes(p1, id, resumed);
    TakenKeeps(p1, id);
    PublishOutcome(Taken(p1, id), resumed);
  }

  lemma {:induction false} ServeAllKeeps(p: Phone, calls: seq<Call>)
    requires Inv(p)
    ensures Inv(ServeAll(p, calls))
    decreases |calls|
  {
    if calls != [] {
      match calls[0] {
        case StartCall(mode, env) => StartKeeps(p, mode, env);
        case ResumeCall(id, env) => ResumeKeeps(p, id, env);
        case StopCall(mode, stops) => StopKeeps(p, mode, stops);
      }
      ServeAllKeeps(Serve(p, calls[0]), calls[1..]);
    }
  }

  /** After every sequence of calls, whatever failed: the controller and the host hold the same pending ids, and an
      attempt id led to a published session at most as often as it was stored. */
  lemma HostAndControllerAgree(calls: seq<Call>)
    ensures var p := ServeAll(FRESH, calls);
            && SessionsOk(p.host.sessions)
            && p.vpn.attempts == p.host.requests
            && (forall id :: p.published[id] <= p.stored[id])
  {
    ServeAllKeeps(FRESH, calls);
  }

  /** A resume takes its id from both sides, or finds it on neither, so it never loses the request it belongs to. */
  lemma ResumeFindsItsRequest(calls: seq<Call>, id: string, env: StartEnv)
    ensures var p := ServeAll(FRESH, calls);
            && (ControllerResume(p.vpn, id, env).Some? <==> id in p.host.requests)
            && (id != "" ==> id !in Resume(p, id, env).vpn.attempts)
  {
    ServeAllKeeps(FRESH, calls);
  }

  // ----- made-up ids

  lemma {:induction false} DigitsAreUnique(a: nat, b: nat)
    requires Digits(a) == Digits(b)
    ensures a == b
  {
    var s := Digits(a);
    if a >= 10 {
      assert s[..|s| - 1] == Digits(a / 10) == Digits(b / 10);
      assert s[|s| - 1..] == Digits(a % 10) == Digits(b % 10);
      DigitsAreUnique(a / 10, b / 10);
      DigitsAreUnique(a % 10, b % 10);
    }
  }

  lemma MadeUpIdsAreUnique(a: nat, b: nat)
    requires MadeUpId(a) == MadeUpId(b)
    ensures a == b
  {
    var n := |"android-vpn-startup-"|;
    assert MadeUpId(a)[n..] == Digits(a) && MadeUpId(b)[n..] == Digits(b);
    DigitsAreUnique(a, b);
  }

  /** The device never asks for an id of its own. */
  predicate MakesUpIds(c: Call) { c.StartCall? && c.env.permission.Pending? ==> c.env.permission.requestedId == "" }

  ghost predicate StoredOnce(p: Phone) {
    forall id :: id in p.stored ==> p.stored[id] == 1 && exists n :: 1 <= n <= p.vpn.nextId && MadeUpId(n) == id
  }

  lemma NextIdIsNew(p: Phone)
    requires StoredOnce(p)
    ensures MadeUpId(p.vpn.nextId + 1) !in p.stored
  {
    if MadeUpId(p.vpn.nextId + 1) in p.stored {
      var n :| 1 <= n <= p.vpn.nextId && MadeUpId(n) == MadeUpId(p.vpn.nextId + 1);
      MadeUpIdsAreUnique(n, p.vpn.nextId + 1);
    }
  }

  lemma StopStoresNothing(p: Phone, mode: string, stops: bool)
    ensures Stop(p, mode, stops).stored == p.stored && Stop(p, mode, stops).vpn.nextId == p.vpn.nextId
  {
  }

  lemma FinalizeStoresNothing(p: Phone, id: string, request: Option<string>, r: StartResult, env: StartEnv)
    ensures var p' := FinalizeResumed(p, id, request, r, env); p'.stored == p.stored && p'.vpn.nextId == p.vpn.nextId
  {
  }

  lemma ResumeStoresNothing(p: Phone, id: string, env: StartEnv)
    ensures Resume(p, id, env).stored == p.stored && Resume(p, id, env).vpn.nextId == p.vpn.nextId
  {
    var request := if id in p.host.requests then Some(p.host.requests[id]) else None;
    var p1 := p.(host := p.host.(requests := p.host.requests - {id}));
    match ControllerResume(p1.vpn, id, env) {
      case None =>
      case Some((vpn, r)) => FinalizeStoresNothing(p1.(vpn := vpn), id, request, r, env);
    }
  }

  lemma StartStoresAtMostOne(p: Phone, mode: string, env: StartEnv)
    requires env.permission.Pending? ==> env.permission.requestedId == ""
    ensures var p' := Start(p, mode, env);
            || (p'.stored == p.stored && p'.vpn.nextId == p.vpn.nextId)
            || (p'.stored == p.stored + multiset{MadeUpId(p.vpn.nextId + 1)} && p'.vpn.nextId == p.vpn.nextId + 1)
  {
    if !(env.permission.Pending? && mode == ANDROID_VPN_SERVICE && env.planned && env.admitted) {
      OtherStarts(p, mode, env);
      StopStoresNothing(p, mode, env.stops);
    }
  }

  lemma StoresAtMostOne(p: Phone, c: Call)
    requires MakesUpIds(c)
    ensures var p' := Serve(p, c);
            || (p'.stored == p.stored && p'.vpn.nextId == p.vpn.nextId)
            || (p'.stored == p.stored + multiset{MadeUpId(p.vpn.nextId + 1)} && p'.vpn.nextId == p.vpn.nextId + 1)
  {
    match c
    case StartCall(mode, env) => StartStoresAtMostOne(p, mode, env);
    case ResumeCall(id, env) => ResumeStoresNothing(p, id, env);
    case StopCall(mode, stops) => StopStoresNothing(p, mode, stops);
  }

  lemma StoredOnceStays(p: Phone, c: Call)
    requires StoredOnce(p) && MakesUpIds(c)
    ensures StoredOnce(Serve(p, c))
  {
    var p' := Serve(p, c);
    NextIdIsNew(p);
    StoresAtMostOne(p, c);
    forall id | id in p'.stored
      ensures p'.stored[id] == 1 && exists n :: 1 <= n <= p'.vpn.nextId && MadeUpId(n) == id
    {
      if id in p.stored {
        var n :| 1 <= n <= p.vpn.nextId && MadeUpId(n) == id;
        assert 1 <= n <= p'.vpn.nextId;
      } else {
        assert id == MadeUpId(p'.vpn.nextId);
      }
    }
  }

  lemma {:induction false} AllStoredOnce(p: Phone, calls: seq<Call>)
    requires StoredOnce(p) && forall c :: c in calls ==> MakesUpIds(c)
    ensures StoredOnce(ServeAll(p, calls))
    decreases |calls|
  {
    if calls != [] {
      assert calls[0] in calls;
      StoredOnceStays(p, calls[0]);
      AllStoredOnce(Serve(p, calls[0]), calls[1..]);
    }
  }

  /** With ids the controller makes up, every attempt id leads to at most one published session. */
  lemma OneSessionPerAttempt(calls: seq<Call>)
    requires forall c :: c in calls ==> MakesUpIds(c)
    ensures forall id :: ServeAll(FRESH, calls).published[id] <= 1
  {
    HostAndControllerAgree(calls);
    AllStoredOnce(FRESH, calls);
    var p := ServeAll(FRESH, calls);
    forall id ensures p.published[id] <= 1 {
      assert p.published[id] <= p.stored[id];
      assert p.stored[id] > 0 ==> id in p.stored;
    }
  }
}
