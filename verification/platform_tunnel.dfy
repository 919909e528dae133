/** The platform tunnel's life as the client host and its native controllers see it. */
module PlatformTunnel {
  import opened Wrappers

  const LINUX_TUN := "linux_tun"
  const WINDOWS_WINTUN := "windows_wintun"
  const ANDROID_VPN_SERVICE := "android_vpn_service"

  datatype Stage =
    | CapabilityCheck | PermissionAcquire | EntitlementAcquire | DriverCheck | ProfileValidate
    | RouteValidate | HostBringup | RuntimeAttach | DataplaneVerify | Unlisted(name: string)

  /** The host's idea of which failures leave something to clean up. */
  predicate FailureNeedsCleanup(stage: Stage) {
    stage.RouteValidate? || stage.HostBringup? || stage.RuntimeAttach? || stage.DataplaneVerify?
  }

  datatype Evidence = Evidence(hostAttached: bool, handshakeFresh: bool, bidirectional: bool)

  predicate Verified(e: Option<Evidence>) {
    e.Some? && e.value.hostAttached && e.value.handshakeFresh && e.value.bidirectional
  }

  /** A ready tunnel on a desktop needs data-plane evidence. */
  predicate ReadyEvidenceOk(mode: string, e: Option<Evidence>) {
    mode == WINDOWS_WINTUN || mode == LINUX_TUN ==> Verified(e)
  }

  datatype StartResult = StartResult(mode: string, ready: bool, stage: Stage, startupAttempt: string, evidence: Option<Evidence>)

  function Failed(mode: string, stage: Stage): StartResult { StartResult(mode, false, stage, "", None) }

  // ----- the host's sessions and pending startup requests

  /** How often `done` was closed is counted. */
  datatype Session = Session(mode: string, terminal: bool, closes: nat)

  type Sessions = map<string, Session>

  datatype Host = Host(sessions: Sessions, requests: map<string, string>)

  function Ended(s: Session): Session { Session(s.mode, true, if s.closes == 0 then 1 else s.closes) }

  function Marked(ss: Sessions, mode: string): Sessions {
    map id | id in ss :: if ss[id].mode == mode && !ss[id].terminal then Ended(ss[id]) else ss[id]
  }

  /** Publishing a session first ends the one it replaces. */
  function Published(ss: Sessions, mode: string, id: string): Sessions {
    Marked(ss, mode)[id := Session(mode, false, 0)]
  }

  function Cleared(requests: map<string, string>, mode: string): map<string, string> {
    map id | id in requests && requests[id] != mode :: requests[id]
  }

  function AfterStop(h: Host, mode: string): Host { Host(Marked(h.sessions, mode), Cleared(h.requests, mode)) }

  function Remembered(h: Host, attempt: string, mode: string): Host {
    if attempt == "" then h else h.(requests := h.requests[attempt := mode])
  }

  ghost predicate Live(ss: Sessions, mode: string) { exists id :: id in ss && ss[id].mode == mode && !ss[id].terminal }

  /** At most one session per mode goes on, and `done` is closed once, exactly when its session has ended. */
  ghost predicate SessionsOk(ss: Sessions) {
    && (forall id :: id in ss ==> ss[id].closes == if ss[id].terminal then 1 else 0)
    && (forall a, b :: a in ss && b in ss && ss[a].mode == ss[b].mode && !ss[a].terminal && !ss[b].terminal ==> a == b)
  }

  lemma MarkedEnds(ss: Sessions, mode: string)
    requires SessionsOk(ss)
    ensures SessionsOk(Marked(ss, mode)) && !Live(Marked(ss, mode), mode)
    ensures forall m :: m != mode ==> (Live(Marked(ss, mode), m) <==> Live(ss, m))
    ensures forall id :: id in ss && (ss[id].terminal || ss[id].mode != mode) ==> Marked(ss, mode)[id] == ss[id]
  {
    forall m | m != mode ensures Live(Marked(ss, mode), m) <==> Live(ss, m) {
      if Live(ss, m) {
        var id :| id in ss && ss[id].mode == m && !ss[id].terminal;
        assert Marked(ss, mode)[id] == ss[id];
      }
    }
  }

  lemma PublishedLives(ss: Sessions, mode: string, id: string)
    requires SessionsOk(ss)
    ensures SessionsOk(Published(ss, mode, id)) && Live(Published(ss, mode, id), mode)
  {
    MarkedEnds(ss, mode);
    assert id in Published(ss, mode, id);
  }

  /** What may happen to the sessions each time the host takes its lock, in whatever order calls interleave. */
  datatype LockedStep = Publish(mode: string, id: string) | MarkStopped(mode: string)

  function Locked(ss: Sessions, step: LockedStep): Sessions {
    match step
    case Publish(mode, id) => Published(ss, mode, id)
    case MarkStopped(mode) => Marked(ss, mode)
  }

  function AllLocked(ss: Sessions, steps: seq<LockedStep>): Sessions
    decreases |steps|
  {
    if steps == [] then ss else AllLocked(Locked(ss, steps[0]), steps[1..])
  }

  /** Under every interleaving of calls. */
  lemma {:induction false} SessionsStayOk(ss: Sessions, steps: seq<LockedStep>)
    requires SessionsOk(ss)
    ensures SessionsOk(AllLocked(ss, steps))
    decreases |steps|
  {
    if steps != [] {
      MarkedEnds(ss, steps[0].mode);
      if steps[0].Publish? {
        PublishedLives(ss, steps[0].mode, steps[0].id);
      }
      SessionsStayOk(Locked(ss, steps[0]), steps[1..]);
    }
  }
}
