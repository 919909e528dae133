/** The host and its controllers as objects. */
module PlatformHost {
  import opened Wrappers
  import opened PlatformTunnel
  import Linux = LinuxDesktop
  import Android = AndroidEmbedded

  class ClientHost {
    var sessions: Sessions
    var startupRequests: map<string, string>

    ghost function Value(): Host
      reads this
    {
      Host(sessions, startupRequests)
    }

    constructor ()
      ensures Value() == Host(map[], map[])
    {
      sessions, startupRequests := map[], map[];
    }

    /** Sessions come in any order. */
    method MarkPlatformTunnelSessionsStopped(mode: string)
      modifies this`sessions
      ensures sessions == Marked(old(sessions), mode)
    {
      var rest := sessions.Keys;
      while rest != {}
        invariant rest <= sessions.Keys && sessions.Keys == old(sessions).Keys
        invariant forall id :: id in sessions ==>
                    sessions[id] == if id in rest then old(sessions)[id] else Marked(old(sessions), mode)[id]
        decreases |rest|
      {
        var id :| id in rest;
        rest := rest - {id};
        var managed := sessions[id];
        if managed.mode != mode || managed.terminal {
          continue;
        }
        var closes := managed.closes;
        if closes == 0 {
          closes := 1;
        }
        sessions := sessions[id := Session(mode, true, closes)];
      }
    }

    method StartPlatformTunnelSession(mode: string, id: string)
      modifies this`sessions
      ensures sessions == Published(old(sessions), mode, id)
    {
      MarkPlatformTunnelSessionsStopped(mode);
      sessions := sessions[id := Session(mode, false, 0)];
    }

    method RememberStartupRequest(attempt: string, mode: string)
      modifies this`startupRequests
      ensures Value() == Remembered(old(Value()), attempt, mode)
    {
      if attempt != "" {
        startupRequests := startupRequests[attempt := mode];
      }
    }

    method TakeStartupRequest(attempt: string) returns (r: Option<string>)
      modifies this`startupRequests
      ensures r == if attempt != "" && attempt in old(startupRequests) then Some(old(startupRequests)[attempt]) else None
      ensures startupRequests == if attempt == "" then old(startupRequests) else old(startupRequests) - {attempt}
    {
      if attempt == "" || attempt !in startupRequests {
        assert attempt != "" ==> startupRequests == startupRequests - {attempt};
        return None;
      }
      r := Some(startupRequests[attempt]);
      startupRequests := startupRequests - {attempt};
    }

    method ClearStartupRequestsForMode(mode: string)
      modifies this`startupRequests
      ensures startupRequests == Cleared(old(startupRequests), mode)
    {
      var rest := startupRequests.Keys;
      while rest != {}
        invariant rest <= old(startupRequests).Keys
        invariant forall id :: id in startupRequests <==>
                    id in old(startupRequests) && (id in rest || old(startupRequests)[id] != mode)
        invariant forall id :: id in startupRequests ==> startupRequests[id] == old(startupRequests)[id]
        decreases |rest|
      {
        var id :| id in rest;
        rest := rest - {id};
        if startupRequests[id] == mode {
          startupRequests := startupRequests - {id};
        }
      }
    }

    /** What follows a successful stop. */
    method PublishPlatformTunnelStop(mode: string)
      modifies this
      ensures Value() == AfterStop(old(Value()), mode)
    {
      ClearStartupRequestsForMode(mode);
      MarkPlatformTunnelSessionsStopped(mode);
    }
  }

  class LinuxTunController {
    var attemptSeq: nat
    var activeAttempt: Option<nat>

    ghost function Value(): Linux.LinuxTun
      reads this
    {
      Linux.LinuxTun(attemptSeq, activeAttempt)
    }

    constructor ()
      ensures Value() == Linux.LinuxTun(0, None)
    {
      attemptSeq, activeAttempt := 0, None;
    }

    /** A new attempt has a number never used before. */
    method BeginNativeAttempt() returns (attempt: Option<nat>)
      modifies this
      ensures attempt == (if old(activeAttempt).Some? then None else Some(old(attemptSeq) + 1))
      ensures Value() == if attempt.Some? then Linux.LinuxTun(attempt.value, attempt) else old(Value())
    {
      if activeAttempt.Some? {
        return None;
      }
      attemptSeq := attemptSeq + 1;
      activeAttempt := Some(attemptSeq);
      return activeAttempt;
    }

    method EndNativeAttempt(attempt: Option<nat>)
      modifies this
      ensures Value() == Linux.End(old(Value()), attempt)
    {
      if attempt.Some? && activeAttempt == attempt {
        activeAttempt := None;
      }
    }

    method Start(mode: string, env: Linux.StartEnv) returns (r: StartResult)
      modifies this
      ensures (Value(), r) == Linux.ControllerStart(old(Value()), mode, env)
      ensures r.mode == mode && r.startupAttempt == ""
      ensures old(activeAttempt).Some? ==> Value() == old(Value()) && !r.ready
      ensures r.ready <==> && mode == LINUX_TUN && env.planned && env.leaseFails.None? && old(activeAttempt).None?
                           && env.nativeFails.None? && env.evidence == Linux.PROVEN
      ensures r.ready ==> activeAttempt == Some(old(attemptSeq) + 1) && r.evidence == Linux.PROVEN
      ensures !FailureNeedsCleanup(r.stage) ==> activeAttempt == old(activeAttempt)
    {
      Linux.EvidenceIsAll(env.evidence);
      if mode != LINUX_TUN || !env.planned {
        return Failed(mode, CapabilityCheck);
      }
      if env.leaseFails.Some? {
        return Failed(mode, Linux.LeaseStage(env.leaseFails.value));
      }
      var attempt := BeginNativeAttempt();
      if attempt.None? {
        return Failed(mode, CapabilityCheck);
      }
      if env.nativeFails.Some? {
        if !Linux.StageNeedsCleanup(env.nativeFails.value) {
          EndNativeAttempt(attempt);
        }
        return Failed(mode, env.nativeFails.value);
      }
      if !Verified(env.evidence) {
        return Failed(mode, DataplaneVerify);
      }
      return StartResult(mode, true, DataplaneVerify, "", env.evidence);
    }

    method Stop(mode: string, stops: bool) returns (ok: bool)
      modifies this
      ensures ok <==> Linux.ControllerStop(old(Value()), mode, stops).Some?
      ensures Value() == if ok then Linux.ControllerStop(old(Value()), mode, stops).value else old(Value())
    {
      if mode != LINUX_TUN || !stops {
        return false;
      }
      EndNativeAttempt(activeAttempt);
      return true;
    }
  }

  /** A host with the Linux controller. */
  class LinuxHost {
    const host: ClientHost
    const controller: LinuxTunController
    ghost var begun: seq<nat>
    ghost var stranded: bool

    ghost function Value(): Linux.Desktop
      reads this, host, controller
    {
      Linux.Desktop(host.Value(), controller.Value(), begun, stranded)
    }

    constructor ()
      ensures Value() == Linux.FRESH && fresh(host) && fresh(controller)
    {
      host := new ClientHost();
      controller := new LinuxTunController();
      begun, stranded := [], false;
    }

    /** A stop that succeeds takes the attempt, the pending requests and the sessions with it. */
    method StopPlatformTunnel(mode: string, stops: bool) returns (ok: bool)
      modifies this, host, controller
      ensures Value() == Linux.Stop(old(Value()), mode, stops)
      ensures ok <==> mode == LINUX_TUN && stops
    {
      ok := controller.Stop(mode, stops);
      if ok {
        host.PublishPlatformTunnelStop(mode);
        stranded := false;
      }
    }

    method FinalizePlatformTunnelFailure(r: StartResult, stops: bool)
      modifies this, host, controller
      ensures Value() == Linux.FinalizeFailure(old(Value()), r, stops)
    {
      host.RememberStartupRequest(r.startupAttempt, r.mode);
      if FailureNeedsCleanup(r.stage) {
        var _ := StopPlatformTunnel(r.mode, stops);
      }
    }

    /** The host looks at the evidence again. */
    method FinalizePlatformTunnelStart(mode: string, r: StartResult, env: Linux.StartEnv)
      modifies this, host, controller
      ensures Value() == Linux.Finalized(old(Value()), mode, r, env)
    {
      if !r.ready {
        FinalizePlatformTunnelFailure(r, env.stops);
      } else if !ReadyEvidenceOk(mode, r.evidence) {
        FinalizePlatformTunnelFailure(Failed(mode, DataplaneVerify), env.stops);
      } else if env.session.None? {
        var _ := StopPlatformTunnel(mode, env.stops);
      } else {
        host.StartPlatformTunnelSession(mode, env.session.value);
      }
    }

    method StartPlatformTunnel(mode: string, env: Linux.StartEnv)
      modifies this, host, controller
      ensures Value() == Linux.Start(old(Value()), mode, env)
      ensures Linux.Inv(old(Value())) ==> Linux.Inv(Value())
      ensures mode == LINUX_TUN && Linux.Inv(old(Value())) && !Linux.LinuxLive(old(Value())) ==>
                (Linux.LinuxLive(Value()) <==> Linux.Succeeds(env) && old(controller.activeAttempt).None?)
    {
      ghost var d := Value();
      if env.admitted {
        var r := controller.Start(mode, env);
        if controller.attemptSeq != d.tun.attemptSeq {
          begun := begun + [controller.attemptSeq];
          stranded := stranded || (!(r.ready && env.session.Some?) && controller.activeAttempt.Some?);
        }
        FinalizePlatformTunnelStart(mode, r, env);
      }
      if Linux.Inv(d) {
        Linux.StartKeeps(d, mode, env);
        if mode == LINUX_TUN && !Linux.LinuxLive(d) {
          Linux.StartPublishes(d, env);
        }
      }
    }
  }

  class AndroidVPNServiceController {
    var attempts: map<string, string>
    var nextId: nat

    ghost function Value(): Android.VpnService
      reads this
    {
      Android.VpnService(attempts, nextId)
    }

    constructor ()
      ensures Value() == Android.VpnService(map[], 0)
    {
      attempts, nextId := map[], 0;
    }

    method StoreStartupAttempt(requestedId: string, mode: string) returns (id: string)
      modifies this
      ensures id == Android.AttemptId(old(Value()), requestedId) && Value() == Android.Store(old(Value()), requestedId, mode)
    {
      id := requestedId;
      if id == "" {
        nextId := nextId + 1;
        id := Android.MadeUpId(nextId);
      }
      attempts := attempts[id := mode];
    }

    method TakeStartupAttempt(id: string) returns (mode: Option<string>)
      modifies this
      ensures mode == if id in old(attempts) then Some(old(attempts)[id]) else None
      ensures attempts == old(attempts) - {id} && nextId == old(nextId)
    {
      mode := None;
      if id in attempts {
        mode := Some(attempts[id]);
      }
      attempts := attempts - {id};
    }

    method Start(mode: string, env: Android.StartEnv) returns (r: StartResult)
      modifies this
      ensures (Value(), r) == Android.ControllerStart(old(Value()), mode, env)
    {
      if mode != ANDROID_VPN_SERVICE || !env.planned {
        return Failed(mode, CapabilityCheck);
      }
      match env.permission
      case Denied => return Failed(mode, PermissionAcquire);
      case Pending(requestedId) =>
        var id := StoreStartupAttempt(requestedId, mode);
        return StartResult(mode, false, PermissionAcquire, id, None);
      case Granted => return Android.Finish(mode, env);
    }

    method Resume(id: string, env: Android.StartEnv) returns (r: Option<StartResult>)
      modifies this
      ensures var resumed := Android.ControllerResume(old(Value()), id, env);
              if resumed.Some? then r.Some? && (Value(), r.value) == resumed.value else r.None? && Value() == old(Value())
    {
      assert id !in attempts ==> attempts - {id} == attempts;
      var mode := TakeStartupAttempt(id);
      if mode.None? {
        return None;
      }
      if !env.permission.Granted? {
        return Some(Failed(mode.value, PermissionAcquire));
      }
      return Some(Android.Finish(mode.value, env));
    }

    method Stop(mode: string, stops: bool) returns (ok: bool)
      modifies this
      ensures ok <==> mode == ANDROID_VPN_SERVICE && stops
      ensures Value() == if ok then old(Value()).(attempts := map[]) else old(Value())
    {
      if mode != ANDROID_VPN_SERVICE || !stops {
        return false;
      }
      attempts := map[];
      return true;
    }
  }

  /** A host with the Android controller. */
  class AndroidHost {
    const host: ClientHost
    const controller: AndroidVPNServiceController
    ghost var stored: multiset<string>
    ghost var published: multiset<string>

    ghost function Value(): Android.Phone
      reads this, host, controller
    {
      Android.Phone(host.Value(), controller.Value(), stored, published)
    }

    constructor ()
      ensures Value() == Android.FRESH && fresh(host) && fresh(controller)
    {
      host := new ClientHost();
      controller := new AndroidVPNServiceController();
      stored, published := multiset{}, multiset{};
    }

    method StopPlatformTunnel(mode: string, stops: bool) returns (ok: bool)
      modifies this, host, controller
      ensures Value() == Android.Stop(old(Value()), mode, stops)
      ensures ok <==> mode == ANDROID_VPN_SERVICE && stops
    {
      ok := controller.Stop(mode, stops);
      if ok {
        host.PublishPlatformTunnelStop(mode);
      }
    }

    method FinalizeFailure(remember: bool, r: StartResult, mode: string, stops: bool)
      modifies this, host, controller
      ensures Value() == Android.FinalizeFailure(old(Value()), remember, r, mode, stops)
    {
      if remember {
        host.RememberStartupRequest(r.startupAttempt, mode);
      }
      if FailureNeedsCleanup(r.stage) {
        var _ := StopPlatformTunnel(r.mode, stops);
      }
    }

    method PublishReadyPlatformTunnelResult(mode: string, env: Android.StartEnv)
      modifies this, host, controller
      ensures Value() == Android.PublishReady(old(Value()), mode, env)
    {
      if env.session.None? {
        var _ := StopPlatformTunnel(mode, env.stops);
      } else {
        host.StartPlatformTunnelSession(mode, env.session.value);
      }
    }

    method StartPlatformTunnel(mode: string, env: Android.StartEnv)
      modifies this, host, controller
      ensures Value() == Android.Start(old(Value()), mode, env)
    {
      if !env.admitted {
        return;
      }
      var r := controller.Start(mode, env);
      if r.startupAttempt != "" {
        stored := stored + multiset{r.startupAttempt};
      }
      if !r.ready {
        FinalizeFailure(true, r, mode, env.stops);
      } else if !ReadyEvidenceOk(mode, r.evidence) {
        FinalizeFailure(true, Failed(mode, DataplaneVerify), mode, env.stops);
      } else {
        PublishReadyPlatformTunnelResult(mode, env);
      }
    }

    method ResumePlatformTunnel(id: string, env: Android.StartEnv)
      modifies this, host, controller
      ensures Value() == Android.Resume(old(Value()), id, env)
      ensures Android.Inv(old(Value())) ==> Android.Inv(Value())
    {
      ghost var p := Value();
      if Android.Inv(p) {
        Android.ResumeKeeps(p, id, env);
      }
      if id == "" {
        return;
      }
      var request := host.TakeStartupRequest(id);
      var r := controller.Resume(id, env);
      if r.None? {
        return;
      }
      if !r.value.ready {
        FinalizeFailure(request.Some?, r.value, if request.Some? then request.value else "", env.stops);
      } else if request.None? {
        var _ := StopPlatformTunnel(r.value.mode, env.stops);
      } else if !ReadyEvidenceOk(request.value, r.value.evidence) {
        FinalizeFailure(true, Failed(r.value.mode, DataplaneVerify), request.value, env.stops);
      } else {
        PublishReadyPlatformTunnelResult(request.value, env);
        if env.session.Some? {
          published := published + multiset{id};
        }
      }
    }
  }
}
