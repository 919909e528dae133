/** The artifact catalog: readiness of offers, lifetimes, and issuing an artifact once per operation. */
module Catalog {
  import opened Wrappers

  // ----- readiness

  datatype Status = Valid | Invalid | Stale | MissingEvidence | Degraded | Unavailable

  datatype HealthStatus = Unset | Healthy | HealthDegraded | HealthUnavailable | HealthMissingEvidence | UnknownHealth

  /** Times are nanoseconds. */
  datatype Health = Health(status: HealthStatus, expiresAt: Option<int>)

  datatype EvidenceStatus = Fresh | EvidenceStale | Missing | EvidenceDegraded | EvidenceUnavailable | UnknownLimit | UnknownEvidence

  datatype Evidence = Evidence(status: EvidenceStatus, expiresAt: Option<int>)

  datatype Offer = Offer(id: string, family: string, maxTtlSeconds: int, health: Health, evidence: seq<Evidence>)

  datatype Source = Source(id: string, providerId: string, family: string, health: Health, evidence: seq<Evidence>, offers: seq<Offer>)

  datatype Snapshot = Snapshot(endpointId: string, issuer: string, audience: string, generation: nat, sources: seq<Source>)

  predicate Expired(at: Option<int>, now: int) { at.Some? && at.value <= now }

  function HealthStatusAt(h: Health, now: int): Status {
    match h.status
    case HealthDegraded => Degraded
    case HealthMissingEvidence => MissingEvidence
    case HealthUnavailable => Unavailable
    case UnknownHealth => Invalid
    case Unset | Healthy => if Expired(h.expiresAt, now) then Stale else Valid
  }

  function ItemStatus(e: Evidence, now: int): Status {
    match e.status
    case EvidenceStale => Stale
    case Missing => MissingEvidence
    case EvidenceDegraded | UnknownLimit => Degraded
    case EvidenceUnavailable => Unavailable
    case UnknownEvidence => Invalid
    case Fresh => if Expired(e.expiresAt, now) then Stale else Valid
  }

  function FirstProblem(evidence: seq<Evidence>, now: int): Status {
    if evidence == [] then Valid
    else if ItemStatus(evidence[0], now) != Valid then ItemStatus(evidence[0], now)
    else FirstProblem(evidence[1..], now)
  }

  function EvidenceStatusAt(evidence: seq<Evidence>, now: int): Status {
    if evidence == [] then MissingEvidence else FirstProblem(evidence, now)
  }

  /** Health before evidence, the source before the offer. */
  function Readiness(source: Source, offer: Offer, now: int): Status {
    if HealthStatusAt(source.health, now) != Valid then HealthStatusAt(source.health, now)
    else if HealthStatusAt(offer.health, now) != Valid then HealthStatusAt(offer.health, now)
    else if EvidenceStatusAt(source.evidence, now) != Valid then EvidenceStatusAt(source.evidence, now)
    else EvidenceStatusAt(offer.evidence, now)
  }

  predicate HealthyAt(h: Health, now: int) { (h.status.Unset? || h.status.Healthy?) && !Expired(h.expiresAt, now) }

  predicate ProvenAt(evidence: seq<Evidence>, now: int) {
    evidence != [] && forall i :: 0 <= i < |evidence| ==> evidence[i].status.Fresh? && !Expired(evidence[i].expiresAt, now)
  }

  lemma {:induction false} FirstProblemIsFirst(evidence: seq<Evidence>, now: int)
    ensures FirstProblem(evidence, now) == Valid <==> forall i :: 0 <= i < |evidence| ==> ItemStatus(evidence[i], now) == Valid
    ensures FirstProblem(evidence, now) != Valid ==>
              exists i :: 0 <= i < |evidence| && ItemStatus(evidence[i], now) == FirstProblem(evidence, now)
                          && forall j :: 0 <= j < i ==> ItemStatus(evidence[j], now) == Valid
  {
    if evidence != [] {
      FirstProblemIsFirst(evidence[1..], now);
      if ItemStatus(evidence[0], now) == Valid && FirstProblem(evidence[1..], now) != Valid {
        var i :| 0 <= i < |evidence[1..]| && ItemStatus(evidence[1..][i], now) == FirstProblem(evidence[1..], now)
                 && forall j :: 0 <= j < i ==> ItemStatus(evidence[1..][j], now) == Valid;
        assert forall j :: 0 < j < i + 1 ==> evidence[j] == evidence[1..][j - 1];
        assert evidence[i + 1] == evidence[1..][i];
      }
    }
  }

  /** An offer is ready exactly if it and its source are healthy and all their evidence, of which there is some, is
      fresh, nothing having expired. */
  lemma ReadyExactly(source: Source, offer: Offer, now: int)
    ensures Readiness(source, offer, now) == Valid <==>
            HealthyAt(source.health, now) && HealthyAt(offer.health, now) && ProvenAt(source.evidence, now) && ProvenAt(offer.evidence, now)
  {
    FirstProblemIsFirst(source.evidence, now);
    FirstProblemIsFirst(offer.evidence, now);
  }

  /** What one item of health or evidence says about itself. */
  lemma StatusesExactly(h: Health, e: Evidence, now: int)
    ensures HealthStatusAt(h, now) == Valid <==> h.status in {Unset, Healthy} && !Expired(h.expiresAt, now)
    ensures HealthStatusAt(h, now) == Stale <==> h.status in {Unset, Healthy} && Expired(h.expiresAt, now)
    ensures HealthStatusAt(h, now) == Degraded <==> h.status == HealthDegraded
    ensures HealthStatusAt(h, now) == MissingEvidence <==> h.status == HealthMissingEvidence
    ensures HealthStatusAt(h, now) == Unavailable <==> h.status == HealthUnavailable
    ensures ItemStatus(e, now) == Valid <==> e.status == Fresh && !Expired(e.expiresAt, now)
    ensures ItemStatus(e, now) == Stale <==> e.status == EvidenceStale || (e.status == Fresh && Expired(e.expiresAt, now))
    ensures ItemStatus(e, now) == Degraded <==> e.status in {EvidenceDegraded, UnknownLimit}
    ensures ItemStatus(e, now) == MissingEvidence <==> e.status == Missing
    ensures ItemStatus(e, now) == Unavailable <==> e.status == EvidenceUnavailable
  {
  }

  /** What is looked at, in this order: the health of the source and of the offer, then each piece of evidence of the
      source and of the offer, where having none at all counts as missing. */
  function Looked(source: Source, offer: Offer, now: int): seq<Status> {
    [HealthStatusAt(source.health, now), HealthStatusAt(offer.health, now)]
    + Items(source.evidence, now) + Items(offer.evidence, now)
  }

  function Items(evidence: seq<Evidence>, now: int): seq<Status> {
    if evidence == [] then [MissingEvidence] else seq(|evidence|, i requires 0 <= i < |evidence| => ItemStatus(evidence[i], now))
  }

  /** The first status that is not valid. */
  ghost predicate IsFirstProblem(statuses: seq<Status>, st: Status) {
    exists i :: 0 <= i < |statuses| && statuses[i] == st && st != Valid && forall j :: 0 <= j < i ==> statuses[j] == Valid
  }

  lemma EvidenceProblem(evidence: seq<Evidence>, now: int)
    ensures EvidenceStatusAt(evidence, now) == Valid <==> forall i :: 0 <= i < |Items(evidence, now)| ==> Items(evidence, now)[i] == Valid
    ensures EvidenceStatusAt(evidence, now) != Valid ==> IsFirstProblem(Items(evidence, now), EvidenceStatusAt(evidence, now))
  {
    FirstProblemIsFirst(evidence, now);
    var items := Items(evidence, now);
    if evidence == [] {
      assert items[0] == MissingEvidence;
    } else if EvidenceStatusAt(evidence, now) != Valid {
      var i :| 0 <= i < |evidence| && ItemStatus(evidence[i], now) == FirstProblem(evidence, now)
               && forall j :: 0 <= j < i ==> ItemStatus(evidence[j], now) == Valid;
      assert items[i] == FirstProblem(evidence, now) && forall j :: 0 <= j < i ==> items[j] == Valid;
    }
  }

  lemma ProblemIn(a: seq<Status>, b: seq<Status>, st: Status)
    ensures IsFirstProblem(a, st) ==> IsFirstProblem(a + b, st)
    ensures (forall i :: 0 <= i < |a| ==> a[i] == Valid) && IsFirstProblem(b, st) ==> IsFirstProblem(a + b, st)
  {
    if IsFirstProblem(a, st) {
      var i :| 0 <= i < |a| && a[i] == st && st != Valid && forall j :: 0 <= j < i ==> a[j] == Valid;
      assert (a + b)[i] == st && forall j :: 0 <= j < i ==> (a + b)[j] == Valid;
    }
    if (forall i :: 0 <= i < |a| ==> a[i] == Valid) && IsFirstProblem(b, st) {
      var i :| 0 <= i < |b| && b[i] == st && st != Valid && forall j :: 0 <= j < i ==> b[j] == Valid;
      assert (a + b)[|a| + i] == st;
      assert forall j :: 0 <= j < |a| + i ==> (a + b)[j] == if j < |a| then a[j] else b[j - |a|];
    }
  }

  /** An offer that is not ready is reported with the first problem there is. */
  lemma FirstProblemIsReported(source: Source, offer: Offer, now: int)
    requires Readiness(source, offer, now) != Valid
    ensures IsFirstProblem(Looked(source, offer, now), Readiness(source, offer, now))
  {
    var st := Readiness(source, offer, now);
    var healths := [HealthStatusAt(source.health, now), HealthStatusAt(offer.health, now)];
    var ofSource, ofOffer := Items(source.evidence, now), Items(offer.evidence, now);
    EvidenceProblem(source.evidence, now);
    EvidenceProblem(offer.evidence, now);
    ProblemIn(healths, ofSource, st);
    ProblemIn(healths + ofSource, ofOffer, st);
    if healths[0] != Valid {
      assert IsFirstProblem(healths, st);
    } else if healths[1] != Valid {
      assert healths[1] == st;
      assert IsFirstProblem(healths, st);
    }
  }

  // ----- lifetimes

  const SECOND := 1_000_000_000

  const MINUTE := 60 * SECOND

  const TWO63 := 0x8000_0000_0000_0000

  /** Durations are 64 bits wide. */
  function Wrap(n: int): int { (n + TWO63) % (2 * TWO63) - TWO63 }

  function Ttl(requested: int, maximum: int): int {
    var asked := Wrap(requested * SECOND);
    var most := Wrap(maximum * SECOND);
    var ttl := if asked <= 0 || (maximum > 0 && asked > most) then most else asked;
    if ttl <= 0 then MINUTE else ttl
  }

  lemma WrapIsExact(n: int)
    requires -TWO63 <= n < TWO63
    ensures Wrap(n) == n
  {
  }

  lemma WrapBelow(n: int)
    requires n >= 0
    ensures Wrap(n) <= n && -TWO63 <= Wrap(n) < TWO63
    ensures n < TWO63 ==> Wrap(n) == n
  {
    if n < TWO63 {
      WrapIsExact(n);
    }
  }

  /** Even when the multiplication overflows, a lifetime is positive and at most a positive maximum. */
  lemma TtlIsBounded(requested: int, maximum: int)
    ensures Ttl(requested, maximum) > 0
    ensures maximum > 0 ==> Ttl(requested, maximum) <= maximum * SECOND
  {
    if maximum > 0 {
      WrapBelow(maximum * SECOND);
    }
  }

  /** Short of an overflow, a request within the maximum is granted as asked; otherwise the maximum, or a minute. */
  lemma TtlExactly(requested: int, maximum: int)
    requires -TWO63 <= requested * SECOND < TWO63 && -TWO63 <= maximum * SECOND < TWO63
    ensures Ttl(requested, maximum) ==
            if requested > 0 && (maximum <= 0 || requested <= maximum) then requested * SECOND
            else if maximum > 0 then maximum * SECOND else MINUTE
  {
    WrapIsExact(requested * SECOND);
    WrapIsExact(maximum * SECOND);
  }

  // ----- issuing

  function FindInSource(offers: seq<Offer>, offerId: string): Option<Offer> {
    if offers == [] then None else if offers[0].id == offerId then Some(offers[0]) else FindInSource(offers[1..], offerId)
  }

  function FindOffer(sources: seq<Source>, sourceId: string, offerId: string): Option<(Source, Offer)> {
    if sources == [] then None
    else if sources[0].id == sourceId && FindInSource(sources[0].offers, offerId).Some? then
      Some((sources[0], FindInSource(sources[0].offers, offerId).value))
    else FindOffer(sources[1..], sourceId, offerId)
  }

  datatype Authorization = TokenMissing | TokenDenied | TokenOk

  /** `artifactId` stands for the hash the service computes. */
  datatype Request = Request(
    wellFormed: bool,
    sourceId: string,
    offerId: string,
    operationId: string,
    ttlSeconds: int,
    authorization: Authorization,
    artifactId: string)

  datatype Response = Response(
    operationId: string, issuedAt: int, expiresAt: int, endpointId: string, issuer: string, audience: string,
    generation: nat, providerId: string, sourceId: string, offerId: string, family: string, artifactId: string)

  datatype Outcome = Denied | IdempotentRetry | NotFound | NotReady(status: Status) | Issued

  datatype Reply = BadRequest | OperationIdRequired | Forbidden | OfferNotFound | OfferNotReady(status: Status) | Success(response: Response)

  datatype AuditRecord = AuditRecord(outcome: Outcome, sourceId: string, offerId: string)

  datatype State = State(
    snapshot: Snapshot,
    issues: map<string, Response>,
    artifactIssues: map<Outcome, nat>,
    evidenceOutcomes: map<Status, nat>,
    authorizations: map<Authorization, nat>,
    audit: seq<AuditRecord>)

  function Count<K>(counters: map<K, nat>, k: K): nat { if k in counters then counters[k] else 0 }

  function Counted<K>(counters: map<K, nat>, k: K): map<K, nat> { counters[k := Count(counters, k) + 1] }

  function IssueResponse(req: Request, snapshot: Snapshot, source: Source, offer: Offer, now: int): Response {
    Response(req.operationId, now, now + Ttl(req.ttlSeconds, offer.maxTtlSeconds), snapshot.endpointId, snapshot.issuer,
             snapshot.audience, snapshot.generation, source.providerId, source.id, offer.id, offer.family, req.artifactId)
  }

  function Audited(s: State, outcome: Outcome, req: Request): State {
    s.(audit := s.audit + [AuditRecord(outcome, req.sourceId, req.offerId)])
  }

  function NoteNotFound(s: State, req: Request): State {
    Audited(s.(artifactIssues := Counted(s.artifactIssues, NotFound)), NotFound, req)
  }

  function NoteNotReady(s: State, status: Status, req: Request): State {
    Audited(s.(artifactIssues := Counted(s.artifactIssues, NotReady(status)),
               evidenceOutcomes := Counted(s.evidenceOutcomes, status)), NotReady(status), req)
  }

  function NoteIssued(s: State, response: Response, req: Request): State {
    Audited(s.(issues := s.issues[req.operationId := response], artifactIssues := Counted(s.artifactIssues, Issued),
               evidenceOutcomes := Counted(s.evidenceOutcomes, Valid)), Issued, req)
  }

  /** What happens under the lock to an operation seen for the first time. `provided` is the provider's snapshot. */
  function IssueNew(s: State, req: Request, now: int, provided: Option<Snapshot>): (State, Reply) {
    var s1 := s.(snapshot := if provided.Some? then provided.value else s.snapshot);
    var found := FindOffer(s1.snapshot.sources, req.sourceId, req.offerId);
    if found.None? then (NoteNotFound(s1, req), OfferNotFound) else
    var (source, offer) := found.value;
    var status := Readiness(source, offer, now);
    if status != Valid then (NoteNotReady(s1, status, req), OfferNotReady(status)) else
    var response := IssueResponse(req, s1.snapshot, source, offer, now);
    (NoteIssued(s1, response, req), Success(response))
  }

  function Serve(s: State, req: Request, now: int, provided: Option<Snapshot>): (State, Reply) {
    if !req.wellFormed then (s, BadRequest)
    else if req.operationId == "" then (Audited(s, Denied, req), OperationIdRequired)
    else
      var s1 := s.(authorizations := Counted(s.authorizations, req.authorization));
      if req.authorization != TokenOk then (Audited(s1, Denied, req), Forbidden)
      else if req.operationId in s1.issues then
        (Audited(s1.(artifactIssues := Counted(s1.artifactIssues, IdempotentRetry)), IdempotentRetry, req),
         Success(s1.issues[req.operationId]))
      else IssueNew(s1, req, now, provided)
  }

  datatype Call = Call(req: Request, now: int, provided: Option<Snapshot>)

  function ServeAll(s: State, calls: seq<Call>): (State, seq<Reply>)
    ensures |ServeAll(s, calls).1| == |calls|
    decreases |calls|
  {
    if calls == [] then (s, []) else
    var (s1, reply) := Serve(s, calls[0].req, calls[0].now, calls[0].provided);
    var (s2, replies) := ServeAll(s1, calls[1..]);
    (s2, [reply] + replies)
  }

  function NewState(snapshot: Snapshot): State { State(snapshot, map[], map[], map[], map[], []) }

  // ----- once per operation

  lemma ServeStores(s: State, c: Call)
    ensures var (s', reply) := Serve(s, c.req, c.now, c.provided);
            && (forall op :: op in s.issues ==> op in s'.issues && s'.issues[op] == s.issues[op])
            && (reply.Success? ==> c.req.operationId in s'.issues && s'.issues[c.req.operationId] == reply.response)
  {
  }

  lemma {:induction false} RepliesAreStored(s: State, calls: seq<Call>)
    ensures var (s', replies) := ServeAll(s, calls);
            && (forall op :: op in s.issues ==> op in s'.issues && s'.issues[op] == s.issues[op])
            && (forall i :: 0 <= i < |calls| && replies[i].Success? ==>
                  calls[i].req.operationId in s'.issues && s'.issues[calls[i].req.operationId] == replies[i].response)
    decreases |calls|
  {
    if calls != [] {
      ServeStores(s, calls[0]);
      var (s1, reply) := Serve(s, calls[0].req, calls[0].now, calls[0].provided);
      RepliesAreStored(s1, calls[1..]);
      var (s', replies) := ServeAll(s, calls);
      forall i | 0 <= i < |calls| && replies[i].Success?
        ensures calls[i].req.operationId in s'.issues && s'.issues[calls[i].req.operationId] == replies[i].response
      {
        if i > 0 {
          assert replies[i] == ServeAll(s1, calls[1..]).1[i - 1] && calls[i] == calls[1..][i - 1];
        }
      }
    }
  }

  /** Whatever happens in between, the catalog changing included, all successful replies for one operation are equal. */
  lemma OneResponsePerOperation(s: State, calls: seq<Call>, i: nat, j: nat)
    requires i < |calls| && j < |calls| && calls[i].req.operationId == calls[j].req.operationId
    requires ServeAll(s, calls).1[i].Success? && ServeAll(s, calls).1[j].Success?
    ensures ServeAll(s, calls).1[i] == ServeAll(s, calls).1[j]
  {
    RepliesAreStored(s, calls);
  }

  // ----- counters

  function AuditCount(audit: seq<AuditRecord>, o: Outcome): nat {
    if audit == [] then 0 else AuditCount(audit[..|audit| - 1], o) + if audit[|audit| - 1].outcome == o then 1 else 0
  }

  lemma AuditOneMore(s: State, outcome: Outcome, req: Request)
    ensures forall o :: AuditCount(Audited(s, outcome, req).audit, o) == AuditCount(s.audit, o) + if o == outcome then 1 else 0
  {
    var audit := Audited(s, outcome, req).audit;
    assert audit[..|audit| - 1] == s.audit;
  }

  /** Issues, their counters, the evidence counters and the audit trail tell the same story. */
  ghost predicate CountersOk(s: State) {
    && |s.issues| == Count(s.artifactIssues, Issued) == Count(s.evidenceOutcomes, Valid)
    && (forall st :: st != Valid ==> Count(s.artifactIssues, NotReady(st)) == Count(s.evidenceOutcomes, st))
    && (forall o :: o != Denied ==> AuditCount(s.audit, o) == Count(s.artifactIssues, o))
    && Count(s.artifactIssues, Denied) == 0
  }

  lemma NoteNotFoundKeeps(s: State, req: Request)
    requires CountersOk(s)
    ensures CountersOk(NoteNotFound(s, req))
  {
    AuditOneMore(s, NotFound, req);
  }

  lemma NoteNotReadyKeeps(s: State, status: Status, req: Request)
    requires CountersOk(s) && status != Valid
    ensures CountersOk(NoteNotReady(s, status, req))
  {
    AuditOneMore(s, NotReady(status), req);
  }

  lemma NoteIssuedKeeps(s: State, response: Response, req: Request)
    requires CountersOk(s) && req.operationId !in s.issues
    ensures CountersOk(NoteIssued(s, response, req))
  {
    AuditOneMore(s, Issued, req);
  }

  lemma IssueNewKeeps(s: State, req: Request, now: int, provided: Option<Snapshot>)
    requires CountersOk(s) && req.operationId !in s.issues
    ensures CountersOk(IssueNew(s, req, now, provided).0)
  {
    var s1 := s.(snapshot := if provided.Some? then provided.value else s.snapshot);
    var found := FindOffer(s1.snapshot.sources, req.sourceId, req.offerId);
    NoteNotFoundKeeps(s1, req);
    if found.Some? {
      var (source, offer) := found.value;
      if Readiness(source, offer, now) != Valid {
        NoteNotReadyKeeps(s1, Readiness(source, offer, now), req);
      }
      NoteIssuedKeeps(s1, IssueResponse(req, s1.snapshot, source, offer, now), req);
    }
  }

  lemma DeniedKeeps(s: State, req: Request)
    requires CountersOk(s)
    ensures CountersOk(Audited(s, Denied, req))
  {
    AuditOneMore(s, Denied, req);
  }

  lemma RetryKeeps(s: State, req: Request)
    requires CountersOk(s)
    ensures CountersOk(Audited(s.(artifactIssues := Counted(s.artifactIssues, IdempotentRetry)), IdempotentRetry, req))
  {
    AuditOneMore(s, IdempotentRetry, req);
  }

  lemma ServeKeeps(s: State, c: Call)
    requires CountersOk(s)
    ensures CountersOk(Serve(s, c.req, c.now, c.provided).0)
  {
    var s1 := s.(authorizations := Counted(s.authorizations, c.req.authorization));
    DeniedKeeps(s, c.req);
    DeniedKeeps(s1, c.req);
    RetryKeeps(s1, c.req);
    if c.req.operationId !in s.issues {
      IssueNewKeeps(s1, c.req, c.now, c.provided);
    }
  }

  lemma {:induction false} CountersAgree(s: State, calls: seq<Call>)
    requires CountersOk(s)
    ensures CountersOk(ServeAll(s, calls).0)
    decreases |calls|
  {
    if calls != [] {
      ServeKeeps(s, calls[0]);
      CountersAgree(Serve(s, calls[0].req, calls[0].now, calls[0].provided).0, calls[1..]);
    }
  }

  // ----- what a request is answered

  /** The k-th offer of the i-th source is one of the two ids asked for. */
  predicate Asked(sources: seq<Source>, i: int, k: int, sourceId: string, offerId: string) {
    0 <= i < |sources| && sources[i].id == sourceId && 0 <= k < |sources[i].offers| && sources[i].offers[k].id == offerId
  }

  /** The first such place: source by source, and within a source offer by offer. */
  ghost predicate FirstAsked(sources: seq<Source>, i: int, k: int, sourceId: string, offerId: string) {
    && Asked(sources, i, k, sourceId, offerId)
    && forall j, l :: Asked(sources, j, l, sourceId, offerId) ==> i < j || (i == j && k <= l)
  }

  lemma {:induction false} FoundInSource(offers: seq<Offer>, offerId: string)
    ensures match FindInSource(offers, offerId)
            case None => forall k :: 0 <= k < |offers| ==> offers[k].id != offerId
            case Some(o) => exists k :: 0 <= k < |offers| && offers[k] == o && o.id == offerId &&
                                        forall l :: 0 <= l < k ==> offers[l].id != offerId
  {
    if offers != [] && offers[0].id != offerId {
      FoundInSource(offers[1..], offerId);
      if FindInSource(offers[1..], offerId).Some? {
        var k :| 0 <= k < |offers[1..]| && offers[1..][k] == FindInSource(offers[1..], offerId).value &&
                 forall l :: 0 <= l < k ==> offers[1..][l].id != offerId;
        assert forall l :: 0 < l < k + 1 ==> offers[l] == offers[1..][l - 1];
        assert offers[k + 1] == offers[1..][k];
      } else {
        assert forall k :: 0 < k < |offers| ==> offers[k] == offers[1..][k - 1];
      }
    }
  }

  /** The search fails exactly if no source of that id has such an offer, and otherwise finds the first one. */
  lemma {:induction false} FoundIsFirst(sources: seq<Source>, sourceId: string, offerId: string)
    ensures match FindOffer(sources, sourceId, offerId)
            case None => forall i, k :: !Asked(sources, i, k, sourceId, offerId)
            case Some(found) => exists i, k :: FirstAsked(sources, i, k, sourceId, offerId)
                                               && found == (sources[i], sources[i].offers[k])
  {
    if sources != [] {
      FoundInSource(sources[0].offers, offerId);
      if sources[0].id == sourceId && FindInSource(sources[0].offers, offerId).Some? {
        var k :| 0 <= k < |sources[0].offers| && sources[0].offers[k] == FindInSource(sources[0].offers, offerId).value &&
                 forall l :: 0 <= l < k ==> sources[0].offers[l].id != offerId;
        assert FirstAsked(sources, 0, k, sourceId, offerId);
      } else {
        FoundIsFirst(sources[1..], sourceId, offerId);
        forall i, k ensures Asked(sources, i, k, sourceId, offerId) <==> Asked(sources[1..], i - 1, k, sourceId, offerId) {
          assert i > 0 ==> i - 1 < |sources[1..]| ==> sources[1..][i - 1] == sources[i];
        }
        if FindOffer(sources[1..], sourceId, offerId).Some? {
          var i, k :| FirstAsked(sources[1..], i, k, sourceId, offerId) &&
                      FindOffer(sources[1..], sourceId, offerId).value == (sources[1..][i], sources[1..][i].offers[k]);
          assert FirstAsked(sources, i + 1, k, sourceId, offerId);
        }
      }
    }
  }

  /** The catalog in force for a request: the provider's, if it gave one. */
  function InForce(s: State, c: Call): Snapshot { if c.provided.Some? then c.provided.value else s.snapshot }

  /** A request for an operation not seen before that is let through. */
  predicate IsNew(s: State, c: Call) {
    c.req.wellFormed && c.req.operationId != "" && c.req.authorization == TokenOk && c.req.operationId !in s.issues
  }

  /** How a request is let through, whom it concerns, and what is noted about it. */
  lemma RepliesExactly(s: State, c: Call)
    ensures var (s', reply) := Serve(s, c.req, c.now, c.provided); var req := c.req;
            var looked := req.wellFormed && req.operationId != "";
            && (reply == BadRequest <==> !req.wellFormed)
            && (reply == OperationIdRequired <==> req.wellFormed && req.operationId == "")
            && (reply == Forbidden <==> looked && req.authorization != TokenOk)
            && (looked && req.authorization == TokenOk && req.operationId in s.issues ==> reply == Success(s.issues[req.operationId]))
            && (IsNew(s, c) && reply.Success? ==> s'.issues == s.issues[req.operationId := reply.response])
            && (!(IsNew(s, c) && reply.Success?) ==> s'.issues == s.issues)
            && s'.snapshot == (if IsNew(s, c) then InForce(s, c) else s.snapshot)
            && s'.authorizations == (if looked then Counted(s.authorizations, req.authorization) else s.authorizations)
            && s'.audit == s.audit + match reply
                                     case BadRequest => []
                                     case OperationIdRequired => [AuditRecord(Denied, req.sourceId, req.offerId)]
                                     case Forbidden => [AuditRecord(Denied, req.sourceId, req.offerId)]
                                     case OfferNotFound => [AuditRecord(NotFound, req.sourceId, req.offerId)]
                                     case OfferNotReady(st) => [AuditRecord(NotReady(st), req.sourceId, req.offerId)]
                                     case Success(_) => [AuditRecord(if IsNew(s, c) then Issued else IdempotentRetry, req.sourceId, req.offerId)]
  {
  }

  /** The answer for source i and its offer k. */
  ghost predicate AnswersFor(snapshot: Snapshot, i: int, k: int, c: Call, reply: Reply)
    requires 0 <= i < |snapshot.sources| && 0 <= k < |snapshot.sources[i].offers|
  {
    var source, offer := snapshot.sources[i], snapshot.sources[i].offers[k];
    var ready := HealthyAt(source.health, c.now) && HealthyAt(offer.health, c.now) &&
                 ProvenAt(source.evidence, c.now) && ProvenAt(offer.evidence, c.now);
    && (reply.Success? <==> ready)
    && (!ready ==> reply.OfferNotReady? && IsFirstProblem(Looked(source, offer, c.now), reply.status))
    && (ready ==>
          var r := reply.response;
          && r.sourceId == c.req.sourceId && r.offerId == c.req.offerId && r.operationId == c.req.operationId
          && r.artifactId == c.req.artifactId && r.issuedAt == c.now
          && r.endpointId == snapshot.endpointId && r.issuer == snapshot.issuer && r.audience == snapshot.audience
          && r.generation == snapshot.generation && r.providerId == source.providerId && r.family == offer.family
          && c.now < r.expiresAt
          && (offer.maxTtlSeconds > 0 ==> r.expiresAt <= c.now + offer.maxTtlSeconds * SECOND))
  }

  /** A new request is refused as unknown exactly if no source of the id it names has an offer of the id it names. Else
      the first such offer decides: it is refused as not ready, or issued exactly if all is healthy and proven; and what
      is issued is what was asked for, under the names of the catalog in force, for as long as it may live. */
  lemma NewIssuesAreReady(s: State, c: Call)
    requires IsNew(s, c)
    ensures var (s', reply) := Serve(s, c.req, c.now, c.provided);
            var sources := InForce(s, c).sources;
            && (reply == OfferNotFound <==> forall i, k :: !Asked(sources, i, k, c.req.sourceId, c.req.offerId))
            && (reply != OfferNotFound ==>
                  exists i, k :: FirstAsked(sources, i, k, c.req.sourceId, c.req.offerId) && AnswersFor(InForce(s, c), i, k, c, reply))
  {
    var snapshot := InForce(s, c);
    FoundIsFirst(snapshot.sources, c.req.sourceId, c.req.offerId);
    var found := FindOffer(snapshot.sources, c.req.sourceId, c.req.offerId);
    if found.Some? {
      var i, k :| FirstAsked(snapshot.sources, i, k, c.req.sourceId, c.req.offerId) &&
                  found.value == (snapshot.sources[i], snapshot.sources[i].offers[k]);
      ReadyExactly(found.value.0, found.value.1, c.now);
      if Readiness(found.value.0, found.value.1, c.now) != Valid {
        FirstProblemIsReported(found.value.0, found.value.1, c.now);
      }
      TtlIsBounded(c.req.ttlSeconds, found.value.1.maxTtlSeconds);
      assert AnswersFor(snapshot, i, k, c, Serve(s, c.req, c.now, c.provided).1);
    }
  }

  /** Short of an overflow, it lives exactly as long as it asked to, if that is positive and within a positive maximum;
      otherwise as long as that maximum, or a minute. */
  lemma NewIssuesLive(s: State, c: Call, i: int, k: int)
    requires IsNew(s, c) && Serve(s, c.req, c.now, c.provided).1.Success?
    requires FirstAsked(InForce(s, c).sources, i, k, c.req.sourceId, c.req.offerId)
    requires var most := InForce(s, c).sources[i].offers[k].maxTtlSeconds;
             -TWO63 <= c.req.ttlSeconds * SECOND < TWO63 && -TWO63 <= most * SECOND < TWO63
    ensures var most, asked := InForce(s, c).sources[i].offers[k].maxTtlSeconds, c.req.ttlSeconds;
            Serve(s, c.req, c.now, c.provided).1.response.expiresAt == c.now +
            if asked > 0 && (most <= 0 || asked <= most) then asked * SECOND else if most > 0 then most * SECOND else MINUTE
  {
    FoundIsFirst(InForce(s, c).sources, c.req.sourceId, c.req.offerId);
    TtlExactly(c.req.ttlSeconds, InForce(s, c).sources[i].offers[k].maxTtlSeconds);
  }

  // ----- the service as an object

  class Service {
    var snapshot: Snapshot
    var issues: map<string, Response>
    var artifactIssues: map<Outcome, nat>
    var evidenceOutcomes: map<Status, nat>
    var authorizations: map<Authorization, nat>
    var audit: seq<AuditRecord>

    ghost function Value(): State
      reads this
    {
      State(snapshot, issues, artifactIssues, evidenceOutcomes, authorizations, audit)
    }

    constructor (snapshot: Snapshot)
      ensures Value() == NewState(snapshot) && CountersOk(Value())
    {
      this.snapshot := snapshot;
      issues, artifactIssues, evidenceOutcomes, authorizations, audit := map[], map[], map[], map[], [];
    }

    method RecordAudit(outcome: Outcome, req: Request)
      modifies this`audit
      ensures Value() == Audited(old(Value()), outcome, req)
    {
      audit := audit + [AuditRecord(outcome, req.sourceId, req.offerId)];
    }

    method Authorize(req: Request) returns (ok: bool)
      modifies this`authorizations
      ensures ok == (req.authorization == TokenOk)
      ensures Value() == old(Value()).(authorizations := Counted(old(authorizations), req.authorization))
    {
      authorizations := Counted(authorizations, req.authorization);
      return req.authorization == TokenOk;
    }

    /** Sources with the same id are searched one after the other. */
    static method LookUpOffer(sources: seq<Source>, sourceId: string, offerId: string) returns (found: Option<(Source, Offer)>)
      ensures found == FindOffer(sources, sourceId, offerId)
      ensures found.None? <==> forall i, k :: !Asked(sources, i, k, sourceId, offerId)
      ensures found.Some? ==> exists i, k :: FirstAsked(sources, i, k, sourceId, offerId)
                                             && found.value == (sources[i], sources[i].offers[k])
    {
      FoundIsFirst(sources, sourceId, offerId);
      for i := 0 to |sources|
        invariant FindOffer(sources, sourceId, offerId) == FindOffer(sources[i..], sourceId, offerId)
      {
        if sources[i].id != sourceId {
          continue;
        }
        var offers := sources[i].offers;
        for k := 0 to |offers|
          invariant FindInSource(offers, offerId) == FindInSource(offers[k..], offerId)
        {
          if offers[k].id == offerId {
            return Some((sources[i], offers[k]));
          }
        }
      }
      return None;
    }

    /** The idempotency check comes before the snapshot is even looked at. */
    method HandleArtifactIssue(req: Request, now: int, provided: Option<Snapshot>) returns (reply: Reply)
      modifies this
      ensures (Value(), reply) == Serve(old(Value()), req, now, provided)
      ensures CountersOk(old(Value())) ==> CountersOk(Value())
    {
      if CountersOk(Value()) {
        ServeKeeps(Value(), Call(req, now, provided));
      }
      if !req.wellFormed {
        return BadRequest;
      }
      if req.operationId == "" {
        RecordAudit(Denied, req);
        return OperationIdRequired;
      }
      var ok := Authorize(req);
      if !ok {
        RecordAudit(Denied, req);
        return Forbidden;
      }
      if req.operationId in issues {
        artifactIssues := Counted(artifactIssues, IdempotentRetry);
        RecordAudit(IdempotentRetry, req);
        return Success(issues[req.operationId]);
      }
      reply := IssueArtifact(req, now, provided);
    }

    method IssueArtifact(req: Request, now: int, provided: Option<Snapshot>) returns (reply: Reply)
      modifies this
      ensures (Value(), reply) == IssueNew(old(Value()), req, now, provided)
    {
      if provided.Some? {
        snapshot := provided.value;
      }
      var found := LookUpOffer(snapshot.sources, req.sourceId, req.offerId);
      if found.None? {
        artifactIssues := Counted(artifactIssues, NotFound);
        RecordAudit(NotFound, req);
        return OfferNotFound;
      }
      var (source, offer) := found.value;
      var status := Readiness(source, offer, now);
      if status != Valid {
        artifactIssues := Counted(artifactIssues, NotReady(status));
        evidenceOutcomes := Counted(evidenceOutcomes, status);
        RecordAudit(NotReady(status), req);
        return OfferNotReady(status);
      }
      var response := IssueResponse(req, snapshot, source, offer, now);
      issues := issues[req.operationId := response];
      artifactIssues := Counted(artifactIssues, Issued);
      evidenceOutcomes := Counted(evidenceOutcomes, Valid);
      RecordAudit(Issued, req);
      return Success(response);
    }
  }
}
