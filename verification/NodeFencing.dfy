/** The node's data path as one state machine: the ledger, the replay cache, the capabilities an API
    issues, and relay requests in flight (internal/node/relay_server.go, relay_client.go). Every
    mutex-held section is one step and steps interleave freely. A restart keeps the ledger file,
    empties the cache, drops leases and requests, and draws a boot epoch never drawn before. */
module NodeFencing {
  import opened Identifiers
  import Ledger = NodeLedger
  import Replay = ReplayCache
  import Cap = Capability

  const MAX_INT64: nat := 0x7FFF_FFFF_FFFF_FFFF

  datatype Config = Config(audience: string, nodeId: string, issuer: string, keyId: string, maxLive: nat)

  /** What the API authorized: one sandbox at one exact node generation. */
  datatype Authorization = Authorization(routeId: string, projectId: string, sandboxId: string, generation: nat,
                                         expiresAt: int)

  /** A node's answer to a route lookup; it never names the engine. */
  datatype RouteResponse = RouteResponse(bootEpoch: string, routeId: string, projectId: string, sandboxId: string,
                                         generation: nat, state: Ledger.RouteState)

  datatype Request =
    | Authenticated(claims: Cap.Claims)
    | Leased(claims: Cap.Claims, entry: Ledger.Entry)
    | Stamped(claims: Cap.Claims, entry: Ledger.Entry, reading: int)
    | Refused(claims: Cap.Claims, entry: Ledger.Entry)
    | Running(claims: Cap.Claims, entry: Ledger.Entry)

  /** The use of the replay cache that admitted an operation: which boot, and which call of that boot. */
  datatype Admission = Admission(boot: nat, index: nat, claims: Cap.Claims)

  datatype Node = Node(
    ledger: Ledger.View,
    cache: map<string, int>,
    epochs: seq<string>,
    boots: seq<seq<Replay.Call>>,
    draining: bool,
    requests: map<nat, Request>,
    resolved: set<RouteResponse>,
    issued: map<Cap.Claims, Authorization>,
    admissions: seq<Admission>)

  datatype Step =
    | Mutates(mutation: Ledger.Mutation, persist: Ledger.Persist)
    | Restarts(epoch: string)
    | Closes
    | BeginsDrain
    | Resolves(routeId: string)
    | Issues(auth: Authorization, response: RouteResponse, operation: Cap.Operation, digest: string,
             bounds: Cap.Bounds, bindingNow: int, signerNow: int, jti: string)
    | Authenticates(id: nat, claims: Cap.Claims, routeId: string, operation: Cap.Operation, now: int)
    | Acquires(id: nat)
    | Stamps(id: nat, digest: string, reading: int)
    | Uses(id: nat)
    | Finishes(id: nat)

  function Current(s: Node): nat
    requires |s.boots| > 0
  {
    |s.boots| - 1
  }

  predicate HasLease(r: Request) {
    !r.Authenticated?
  }

  // ---------- Steps ----------

  /** The API issues only for a route it saw ready at the very generation it authorized. */
  predicate AuthorizedRoute(auth: Authorization, response: RouteResponse) {
    && SafeName(auth.routeId) && auth.generation != 0
    && Cap.ValidIdentity(response.bootEpoch)
    && response.routeId == auth.routeId && response.projectId == auth.projectId && response.sandboxId == auth.sandboxId
    && response.generation == auth.generation && response.state == Ledger.Ready
  }

  function IssueRequestFor(cfg: Config, response: RouteResponse, operation: Cap.Operation, digest: string,
                           bounds: Cap.Bounds, ttl: int): Cap.IssueRequest {
    Cap.IssueRequest(cfg.audience, cfg.nodeId, response.bootEpoch, response.routeId, response.generation,
                     response.projectId, response.sandboxId, operation, digest, bounds, ttl, 0)
  }

  function IssuedClaims(cfg: Config, step: Step): Cap.Result<Cap.Claims>
    requires step.Issues?
  {
    var ttl := Cap.ClampTtl(step.auth.expiresAt - step.bindingNow);
    if !AuthorizedRoute(step.auth, step.response) || ttl.Err? then Cap.Err(Cap.Stale)
    else Cap.Issue(cfg.issuer, cfg.keyId,
                   IssueRequestFor(cfg, step.response, step.operation, step.digest, step.bounds, ttl.value),
                   step.signerNow, step.jti)
  }

  predicate FreshJti(s: Node, jti: string) {
    forall c | c in s.issued :: c.jti != jti
  }

  function ExpectedAt(cfg: Config, epoch: string, entry: Ledger.Entry, operation: Cap.Operation,
                      digest: string): Cap.Expected {
    Cap.Expected(cfg.audience, cfg.nodeId, epoch, entry.routeId, entry.generation, entry.projectId, entry.sandboxId,
                 operation, digest)
  }

  function CallOf(r: Request): Replay.Call
    requires r.Stamped?
  {
    Replay.Call(r.claims.jti, r.claims.expiresAt * Cap.NANOS, r.reading)
  }

  predicate Enabled(cfg: Config, s: Node, step: Step)
    requires |s.epochs| == |s.boots| > 0
  {
    var epoch := s.epochs[Current(s)];
    match step
    case Mutates(_, _) => true
    case Restarts(e) => e !in s.epochs
    case Closes => true
    case BeginsDrain => true
    case Resolves(r) => SafeName(r) && !s.ledger.closed && r in s.ledger.mem.routes
    case Issues(_, response, _, _, _, _, _, jti) =>
      response in s.resolved && FreshJti(s, jti) && IssuedClaims(cfg, step).Ok?
    case Authenticates(id, c, routeId, operation, now) =>
      && id !in s.requests && !s.draining
      && c in s.issued && Cap.Authenticate(cfg.issuer, {cfg.keyId}, c, now).Ok?
      && c.audience == cfg.audience && c.nodeId == cfg.nodeId && c.bootEpoch == epoch
      && c.routeId == routeId && c.operation == operation
    case Acquires(id) => id in s.requests && s.requests[id].Authenticated?
    case Stamps(id, digest, _) =>
      && id in s.requests && s.requests[id].Leased?
      && s.requests[id].entry.generation <= MAX_INT64 && s.requests[id].entry.engineId != ""
      && Cap.Match(cfg.issuer, s.requests[id].claims,
                   ExpectedAt(cfg, epoch, s.requests[id].entry, s.requests[id].claims.operation, digest)).Ok?
    case Uses(id) => id in s.requests && s.requests[id].Stamped?
    case Finishes(id) => id in s.requests && HasLease(s.requests[id])
  }

  ghost function Take(cfg: Config, s: Node, step: Step): Node
    requires |s.epochs| == |s.boots| > 0 && Enabled(cfg, s, step)
  {
    match step
    case Mutates(m, p) => s.(ledger := Ledger.Update(s.ledger, m, p).0)
    case Restarts(e) =>
      s.(ledger := Ledger.Reopen(s.ledger.disk), cache := map[], epochs := s.epochs + [e], boots := s.boots + [[]],
         draining := false, requests := map[])
    case Closes => s.(ledger := Ledger.Close(s.ledger).0)
    case BeginsDrain => s.(draining := true)
    case Resolves(r) =>
      var e := s.ledger.mem.routes[r];
      s.(resolved := s.resolved + {RouteResponse(s.epochs[Current(s)], e.routeId, e.projectId, e.sandboxId,
                                                 e.generation, e.state)})
    case Issues(auth, _, _, _, _, _, _, _) => s.(issued := s.issued[IssuedClaims(cfg, step).value := auth])
    case Authenticates(id, c, _, _, _) => s.(requests := s.requests[id := Authenticated(c)])
    case Acquires(id) => AcquireFor(s, id)
    case Stamps(id, _, reading) =>
      s.(requests := s.requests[id := Stamped(s.requests[id].claims, s.requests[id].entry, reading)])
    case Uses(id) => UseFor(cfg, s, id)
    case Finishes(id) =>
      s.(ledger := Ledger.Release(s.ledger, Ledger.KeyOf(s.requests[id].entry)).0, requests := s.requests - {id})
  }

  function AcquireFor(s: Node, id: nat): Node
    requires id in s.requests
  {
    var c := s.requests[id].claims;
    var (ledger, r) := Ledger.Acquire(s.ledger, c.routeId, c.projectId, c.sandboxId, c.generation);
    s.(ledger := ledger, requests := if r.Ok? then s.requests[id := Leased(c, r.value)] else s.requests - {id})
  }

  /** The replay cache has the last word on admission. */
  function UseFor(cfg: Config, s: Node, id: nat): Node
    requires |s.boots| > 0 && id in s.requests && s.requests[id].Stamped?
  {
    var r := s.requests[id];
    var (cache, outcome) := Replay.Consume(s.cache, cfg.maxLive, CallOf(r));
    var b := Current(s);
    var calls := s.boots[b] + [CallOf(r)];
    if outcome == Replay.Admitted then
      s.(cache := cache, boots := s.boots[b := calls], requests := s.requests[id := Running(r.claims, r.entry)],
         admissions := s.admissions + [Admission(b, |s.boots[b]|, r.claims)])
    else
      s.(cache := cache, boots := s.boots[b := calls], requests := s.requests[id := Refused(r.claims, r.entry)])
  }

  // ---------- Invariant ----------

  /** The route an operation was admitted on still stands where it stood: same engine, same generation. */
  ghost predicate Targets(d: Ledger.DiskState, e: Ledger.Entry) {
    Ledger.HoldsLive(d, Ledger.KeyOf(e)) && d.routes[e.routeId].engineId == e.engineId
  }

  function Holders(requests: map<nat, Request>, key: Ledger.OperationKey): set<nat> {
    set id | id in requests && HasLease(requests[id]) && Ledger.KeyOf(requests[id].entry) == key
  }

  function ActiveCount(v: Ledger.View, key: Ledger.OperationKey): nat {
    Ledger.Leases(v.active, key)
  }

  /** Every lease the ledger counts belongs to exactly one request in flight. */
  ghost predicate Counted(v: Ledger.View, requests: map<nat, Request>) {
    forall key :: ActiveCount(v, key) == |Holders(requests, key)|
  }

  ghost predicate Named(c: Cap.Claims, auth: Authorization) {
    && c.routeId == auth.routeId && c.projectId == auth.projectId && c.sandboxId == auth.sandboxId
    && c.generation == auth.generation
  }

  ghost predicate RequestOk(s: Node, r: Request)
    requires |s.epochs| > 0
  {
    && r.claims in s.issued && r.claims.bootEpoch == s.epochs[|s.epochs| - 1]
    && (HasLease(r) ==>
          && Targets(s.ledger.mem, r.entry)
          && r.entry.routeId == r.claims.routeId && r.entry.projectId == r.claims.projectId
          && r.entry.sandboxId == r.claims.sandboxId && r.entry.generation == r.claims.generation)
  }

  ghost predicate Presents(issued: map<Cap.Claims, Authorization>, call: Replay.Call, c: Cap.Claims) {
    c in issued && call.jti == c.jti && call.expiresAt == c.expiresAt * Cap.NANOS
  }

  ghost predicate AdmissionOk(cfg: Config, s: Node, a: Admission)
    requires |s.epochs| == |s.boots|
  {
    && a.boot < |s.boots| && a.index < |s.boots[a.boot]|
    && Replay.AdmittedAt(cfg.maxLive, s.boots[a.boot], a.index)
    && Presents(s.issued, s.boots[a.boot][a.index], a.claims)
    && a.claims.bootEpoch == s.epochs[a.boot]
  }

  ghost predicate EpochsDistinct(epochs: seq<string>) {
    forall i, j | 0 <= i < j < |epochs| :: epochs[i] != epochs[j]
  }

  ghost predicate IssuedOk(issued: map<Cap.Claims, Authorization>) {
    && (forall c | c in issued :: Named(c, issued[c]))
    && (forall c, d | c in issued && d in issued && c.jti == d.jti :: c == d)
  }

  ghost predicate CallIssued(issued: map<Cap.Claims, Authorization>, call: Replay.Call) {
    exists c :: Presents(issued, call, c)
  }

  ghost predicate CallsIssued(s: Node) {
    forall b, k | 0 <= b < |s.boots| && 0 <= k < |s.boots[b]| :: CallIssued(s.issued, s.boots[b][k])
  }

  ghost predicate RequestsOk(s: Node)
    requires |s.epochs| > 0
  {
    forall id | id in s.requests :: RequestOk(s, s.requests[id])
  }

  ghost predicate CacheOk(cfg: Config, s: Node)
    requires |s.boots| > 0
  {
    s.cache == Replay.After(cfg.maxLive, s.boots[Current(s)])
  }

  ghost predicate AdmissionsOk(cfg: Config, s: Node)
    requires |s.epochs| == |s.boots|
  {
    && (forall i | 0 <= i < |s.admissions| :: AdmissionOk(cfg, s, s.admissions[i]))
    && (forall i, j | 0 <= i < j < |s.admissions| ::
          (s.admissions[i].boot, s.admissions[i].index) != (s.admissions[j].boot, s.admissions[j].index))
  }

  ghost predicate Inv(cfg: Config, s: Node) {
    && |s.epochs| == |s.boots| > 0 && EpochsDistinct(s.epochs)
    && Ledger.Inv(s.ledger)
    && CacheOk(cfg, s)
    && IssuedOk(s.issued)
    && RequestsOk(s)
    && Counted(s.ledger, s.requests)
    && CallsIssued(s)
    && AdmissionsOk(cfg, s)
  }

  ghost predicate Init(s: Node) {
    && Ledger.Inv(s.ledger) && s.ledger == Ledger.Reopen(s.ledger.disk)
    && s.cache == map[] && |s.epochs| == 1 && s.boots == [[]]
    && s.requests == map[] && s.issued == map[] && s.admissions == []
  }

  ghost predicate Next(cfg: Config, s: Node, t: Node) {
    |s.epochs| == |s.boots| > 0 && exists step :: Enabled(cfg, s, step) && t == Take(cfg, s, step)
  }

  /** A run of the node, from its first boot through any number of restarts. */
  ghost predicate IsRun(cfg: Config, run: seq<Node>) {
    |run| > 0 && Init(run[0]) && forall i | 0 < i < |run| :: Next(cfg, run[i - 1], run[i])
  }

  // ---------- Each step keeps the invariant ----------

  lemma TargetsExtend(d: Ledger.DiskState, d': Ledger.DiskState, active: map<Ledger.OperationKey, nat>, e: Ledger.Entry)
    requires Ledger.Extends(d, d') && Ledger.WellFormed(d) && Ledger.LeasesHeld(d', active)
    requires Targets(d, e) && Ledger.KeyOf(e) in active
    ensures Targets(d', e)
  {
    hide SafeName, Ledger.ValidEngineId;
    assert Ledger.HoldsLive(d', Ledger.KeyOf(e));
    assert Ledger.ValidEntry(e.routeId, d.routes[e.routeId], d.lastGeneration);
    assert Ledger.SameAssignment(d.routes[e.routeId], d'.routes[e.routeId]);
  }

  lemma HolderIsActive(v: Ledger.View, requests: map<nat, Request>, id: nat)
    requires Counted(v, requests) && id in requests && HasLease(requests[id])
    ensures Ledger.KeyOf(requests[id].entry) in v.active
  {
    var key := Ledger.KeyOf(requests[id].entry);
    assert id in Holders(requests, key);
    assert ActiveCount(v, key) > 0;
  }

  lemma UpdateKeepsLeases(v: Ledger.View, m: Ledger.Mutation, p: Ledger.Persist)
    ensures Ledger.Update(v, m, p).0.active == v.active && Ledger.Update(v, m, p).0.closed == v.closed
  {
    hide Ledger.Mutate, Ledger.Precheck, Ledger.ValidDisk;
  }

  lemma LedgerParts(v: Ledger.View)
    requires Ledger.Inv(v)
    ensures Ledger.WellFormed(v.mem) && Ledger.LeasesHeld(v.mem, v.active)
  {
    hide Ledger.WellFormed, Ledger.Extends, Ledger.LeasesHeld;
  }

  lemma MutatesKeepsInv(cfg: Config, s: Node, m: Ledger.Mutation, p: Ledger.Persist)
    requires Inv(cfg, s)
    ensures Inv(cfg, Take(cfg, s, Mutates(m, p)))
  {
    hide Ledger.Update, Ledger.Inv, Ledger.WellFormed, Ledger.LeasesHeld, Ledger.Extends, Targets, AdmissionsOk,
         CallsIssued,
         EpochsDistinct, IssuedOk, Replay.After, Holders;
    var t := Take(cfg, s, Mutates(m, p));
    Ledger.UpdateKeepsInv(s.ledger, m, p);
    UpdateKeepsLeases(s.ledger, m, p);
    LedgerParts(s.ledger);
    LedgerParts(t.ledger);
    forall id | id in t.requests ensures RequestOk(t, t.requests[id]) {
      assert RequestOk(s, s.requests[id]);
      if HasLease(t.requests[id]) {
        HolderIsActive(s.ledger, s.requests, id);
        TargetsExtend(s.ledger.mem, t.ledger.mem, s.ledger.active, t.requests[id].entry);
      }
    }
    SameCounts(s, t);
    HistoryUnchanged(cfg, s, t);
  }

  lemma SameCounts(s: Node, t: Node)
    requires Counted(s.ledger, s.requests) && t.ledger.active == s.ledger.active
    requires forall key :: Holders(t.requests, key) == Holders(s.requests, key)
    ensures Counted(t.ledger, t.requests)
  {
    hide Holders;
    forall key ensures ActiveCount(t.ledger, key) == |Holders(t.requests, key)| {
      assert ActiveCount(s.ledger, key) == |Holders(s.requests, key)|;
    }
  }

  /** What a step that leaves boots, epochs and admissions alone cannot disturb. */
  lemma HistoryUnchanged(cfg: Config, s: Node, t: Node)
    requires |s.epochs| == |s.boots| && AdmissionsOk(cfg, s) && CallsIssued(s)
    requires t.epochs == s.epochs && t.boots == s.boots && t.admissions == s.admissions
    requires forall c | c in s.issued :: c in t.issued
    ensures AdmissionsOk(cfg, t) && CallsIssued(t)
  {
    hide Replay.AdmittedAt;
    forall i | 0 <= i < |t.admissions| ensures AdmissionOk(cfg, t, t.admissions[i]) {
      assert AdmissionOk(cfg, s, s.admissions[i]);
    }
    forall b, k | 0 <= b < |t.boots| && 0 <= k < |t.boots[b]| ensures CallIssued(t.issued, t.boots[b][k]) {
      CallStaysIssued(s.issued, t.issued, s.boots[b][k]);
    }
  }

  lemma CallStaysIssued(issued: map<Cap.Claims, Authorization>, issued': map<Cap.Claims, Authorization>,
                        call: Replay.Call)
    requires CallIssued(issued, call) && forall c | c in issued :: c in issued'
    ensures CallIssued(issued', call)
  {
    var c :| Presents(issued, call, c);
    assert Presents(issued', call, c);
  }

  lemma RestartsKeepsInv(cfg: Config, s: Node, epoch: string)
    requires Inv(cfg, s) && Enabled(cfg, s, Restarts(epoch))
    ensures Inv(cfg, Take(cfg, s, Restarts(epoch)))
  {
    hide Ledger.Inv, Ledger.Extends, Replay.AdmittedAt, Replay.Consume;
    var t := Take(cfg, s, Restarts(epoch));
    Ledger.ReopenKeepsInv(s.ledger);
    assert Counted(t.ledger, t.requests) by {
      forall key ensures ActiveCount(t.ledger, key) == |Holders(t.requests, key)| {
        assert Holders(t.requests, key) == {};
      }
    }
    forall i | 0 <= i < |t.admissions| ensures AdmissionOk(cfg, t, t.admissions[i]) {
      assert AdmissionOk(cfg, s, s.admissions[i]);
    }
    forall b, k | 0 <= b < |t.boots| && 0 <= k < |t.boots[b]| ensures CallIssued(t.issued, t.boots[b][k]) {
      assert b < |s.boots| && t.boots[b] == s.boots[b];
    }
  }

  lemma ClosesKeepsInv(cfg: Config, s: Node)
    requires Inv(cfg, s)
    ensures Inv(cfg, Take(cfg, s, Closes))
  {
    hide Ledger.ValidDisk, Ledger.Extends, Targets, EpochsDistinct, IssuedOk, AdmissionsOk, CallsIssued, Replay.After,
         Holders;
    var t := Take(cfg, s, Closes);
    forall id | id in t.requests ensures RequestOk(t, t.requests[id]) {
      assert RequestOk(s, s.requests[id]);
    }
    SameCounts(s, t);
    HistoryUnchanged(cfg, s, t);
  }

  lemma QuietStepKeepsInv(cfg: Config, s: Node, step: Step)
    requires Inv(cfg, s) && Enabled(cfg, s, step) && (step.BeginsDrain? || step.Resolves?)
    ensures Inv(cfg, Take(cfg, s, step))
  {
    hide Ledger.Inv, Targets, EpochsDistinct, IssuedOk, AdmissionsOk, CallsIssued, Replay.After, Holders;
    var t := Take(cfg, s, step);
    forall id | id in t.requests ensures RequestOk(t, t.requests[id]) {
      assert RequestOk(s, s.requests[id]);
    }
    SameCounts(s, t);
    HistoryUnchanged(cfg, s, t);
  }

  lemma IssuesKeepsInv(cfg: Config, s: Node, step: Step)
    requires Inv(cfg, s) && step.Issues? && Enabled(cfg, s, step)
    ensures Inv(cfg, Take(cfg, s, step))
  {
    hide Ledger.Inv, Targets, EpochsDistinct, AdmissionsOk, CallsIssued, Replay.After, Holders, Cap.ValidClaims,
         Cap.ClampTtl,
         Cap.ValidIdentity, SafeName;
    var t := Take(cfg, s, step);
    var c := IssuedClaims(cfg, step).value;
    assert c.jti == step.jti && Named(c, step.auth);
    assert IssuedOk(t.issued);
    forall id | id in t.requests ensures RequestOk(t, t.requests[id]) {
      assert RequestOk(s, s.requests[id]);
    }
    SameCounts(s, t);
    HistoryUnchanged(cfg, s, t);
  }

  lemma AuthenticatesKeepsInv(cfg: Config, s: Node, step: Step)
    requires Inv(cfg, s) && step.Authenticates? && Enabled(cfg, s, step)
    ensures Inv(cfg, Take(cfg, s, step))
  {
    hide Ledger.Inv, Targets, EpochsDistinct, IssuedOk, AdmissionsOk, CallsIssued, Replay.After, Cap.Authenticate;
    var t := Take(cfg, s, step);
    forall id | id in t.requests ensures RequestOk(t, t.requests[id]) {
      assert id in s.requests ==> RequestOk(s, s.requests[id]);
    }
    forall key ensures Holders(t.requests, key) == Holders(s.requests, key) {
    }
    SameCounts(s, t);
    HistoryUnchanged(cfg, s, t);
  }

  lemma StampsKeepsInv(cfg: Config, s: Node, step: Step)
    requires Inv(cfg, s) && step.Stamps? && Enabled(cfg, s, step)
    ensures Inv(cfg, Take(cfg, s, step))
  {
    hide Ledger.Inv, Targets, EpochsDistinct, IssuedOk, AdmissionsOk, CallsIssued, Replay.After, Cap.Match;
    var t := Take(cfg, s, step);
    forall id | id in t.requests ensures RequestOk(t, t.requests[id]) {
      assert RequestOk(s, s.requests[id]);
    }
    forall key ensures Holders(t.requests, key) == Holders(s.requests, key) {
    }
    SameCounts(s, t);
    HistoryUnchanged(cfg, s, t);
  }

  lemma AcquiresKeepsInv(cfg: Config, s: Node, id: nat)
    requires Inv(cfg, s) && Enabled(cfg, s, Acquires(id))
    ensures Inv(cfg, Take(cfg, s, Acquires(id)))
  {
    hide Ledger.Inv, EpochsDistinct, IssuedOk, AdmissionsOk, CallsIssued, Replay.After, Ledger.ValidIdentity, Holders,
         Counted, RequestsOk;
    var t := AcquireFor(s, id);
    var c := s.requests[id].claims;
    Ledger.AcquireKeepsInv(s.ledger, c.routeId, c.projectId, c.sandboxId, c.generation);
    LedgerParts(s.ledger);
    AcquireKeepsRequests(s, id);
    AcquireKeepsCounts(s, id);
    HistoryUnchanged(cfg, s, t);
  }

  lemma AcquireKeepsCounts(s: Node, id: nat)
    requires Ledger.WellFormed(s.ledger.mem) && Counted(s.ledger, s.requests) && id in s.requests
             && !HasLease(s.requests[id])
    ensures Counted(AcquireFor(s, id).ledger, AcquireFor(s, id).requests)
  {
    hide Ledger.WellFormed, Ledger.ValidIdentity, Holders, Counted;
    var t := AcquireFor(s, id);
    var c := s.requests[id].claims;
    if Ledger.Acquire(s.ledger, c.routeId, c.projectId, c.sandboxId, c.generation).1.Ok? {
      EntryNamesItself(s.ledger.mem, c.routeId);
      GrantCounted(s, t, id);
    } else {
      forall key ensures Holders(t.requests, key) == Holders(s.requests, key) {
        DropUnleased(s.requests, id, key);
      }
      SameCounts(s, t);
    }
  }

  lemma AcquireKeepsRequests(s: Node, id: nat)
    requires |s.epochs| > 0 && Ledger.WellFormed(s.ledger.mem) && RequestsOk(s) && id in s.requests
    ensures RequestsOk(AcquireFor(s, id))
  {
    hide Ledger.WellFormed, Ledger.ValidIdentity;
    var t := AcquireFor(s, id);
    assert t.ledger.mem == s.ledger.mem;
    assert RequestOk(s, s.requests[id]);
    if s.requests[id].claims.routeId in s.ledger.mem.routes {
      EntryNamesItself(s.ledger.mem, s.requests[id].claims.routeId);
    }
    forall i | i in t.requests ensures RequestOk(t, t.requests[i]) {
      assert RequestOk(s, s.requests[i]);
    }
  }

  lemma EntryNamesItself(d: Ledger.DiskState, r: string)
    requires Ledger.WellFormed(d) && r in d.routes
    ensures d.routes[r].routeId == r
  {
    assert Ledger.ValidEntry(r, d.routes[r], d.lastGeneration);
  }

  lemma DropUnleased(requests: map<nat, Request>, id: nat, key: Ledger.OperationKey)
    requires id in requests && !HasLease(requests[id])
    ensures Holders(requests - {id}, key) == Holders(requests, key)
  {
  }

  lemma GrantCounted(s: Node, t: Node, id: nat)
    requires Counted(s.ledger, s.requests) && id in s.requests && !HasLease(s.requests[id])
    requires id in t.requests && HasLease(t.requests[id]) && t.requests == s.requests[id := t.requests[id]]
    requires var key := Ledger.KeyOf(t.requests[id].entry);
             t.ledger.active == s.ledger.active[key := ActiveCount(s.ledger, key) + 1]
    ensures Counted(t.ledger, t.requests)
  {
    hide Holders;
    forall key ensures ActiveCount(t.ledger, key) == |Holders(t.requests, key)| {
      assert ActiveCount(s.ledger, key) == |Holders(s.requests, key)|;
      HoldersGain(s.requests, id, t.requests[id], key);
    }
  }

  lemma HoldersGain(requests: map<nat, Request>, id: nat, r: Request, key: Ledger.OperationKey)
    requires id in requests && !HasLease(requests[id]) && HasLease(r)
    ensures |Holders(requests[id := r], key)| == |Holders(requests, key)| + if key == Ledger.KeyOf(r.entry) then 1
            else 0
  {
    if key == Ledger.KeyOf(r.entry) {
      assert Holders(requests[id := r], key) == Holders(requests, key) + {id};
    } else {
      assert Holders(requests[id := r], key) == Holders(requests, key);
    }
  }

  lemma ReturnCounted(s: Node, t: Node, id: nat)
    requires Counted(s.ledger, s.requests) && id in s.requests && HasLease(s.requests[id])
    requires t.requests == s.requests - {id}
    requires Ledger.Release(s.ledger, Ledger.KeyOf(s.requests[id].entry)) == (t.ledger, Ledger.None)
    ensures Counted(t.ledger, t.requests)
  {
    hide Ledger.HoldsLive, Holders;
    var returned := Ledger.KeyOf(s.requests[id].entry);
    forall key ensures ActiveCount(t.ledger, key) == |Holders(t.requests, key)| {
      assert ActiveCount(s.ledger, key) == |Holders(s.requests, key)|;
      DropLeased(s.requests, id, key);
    }
  }

  lemma DropLeased(requests: map<nat, Request>, id: nat, key: Ledger.OperationKey)
    requires id in requests && HasLease(requests[id])
    ensures |Holders(requests - {id}, key)| ==
            |Holders(requests, key)| - if Ledger.KeyOf(requests[id].entry) == key then 1 else 0
  {
    if Ledger.KeyOf(requests[id].entry) == key {
      assert Holders(requests, key) == Holders(requests - {id}, key) + {id};
    } else {
      assert Holders(requests - {id}, key) == Holders(requests, key);
    }
  }

  lemma FinishesKeepsInv(cfg: Config, s: Node, id: nat)
    requires Inv(cfg, s) && Enabled(cfg, s, Finishes(id))
    ensures Inv(cfg, Take(cfg, s, Finishes(id)))
  {
    hide Ledger.Inv, Targets, EpochsDistinct, IssuedOk, AdmissionsOk, CallsIssued, Replay.After, Counted;
    var t := Take(cfg, s, Finishes(id));
    var key := Ledger.KeyOf(s.requests[id].entry);
    HolderIsActive(s.ledger, s.requests, id);
    Ledger.LiveReleaseSucceeds(s.ledger, key);
    ReturnCounted(s, t, id);
    assert t.ledger.mem == s.ledger.mem;
    forall i | i in t.requests ensures RequestOk(t, t.requests[i]) {
      assert RequestOk(s, s.requests[i]);
    }
    HistoryUnchanged(cfg, s, t);
  }

  lemma UsesKeepsInv(cfg: Config, s: Node, id: nat)
    requires Inv(cfg, s) && Enabled(cfg, s, Uses(id))
    ensures Inv(cfg, Take(cfg, s, Uses(id)))
  {
    hide Ledger.Inv, Targets, EpochsDistinct, IssuedOk, AdmissionsOk, CallsIssued, Replay.Consume, CacheOk, Holders;
    var t := UseFor(cfg, s, id);
    assert RequestOk(s, s.requests[id]);
    UseKeepsRequests(cfg, s, id);
    forall key ensures Holders(t.requests, key) == Holders(s.requests, key) {
      Relabel(s.requests, id, t.requests[id], key);
    }
    SameCounts(s, t);
    UseKeepsCache(cfg, s, id);
    UseKeepsCalls(cfg, s, id);
    UseKeepsAdmissions(cfg, s, id);
  }

  lemma Relabel(requests: map<nat, Request>, id: nat, r: Request, key: Ledger.OperationKey)
    requires id in requests && HasLease(requests[id]) && HasLease(r) && r.entry == requests[id].entry
    ensures Holders(requests[id := r], key) == Holders(requests, key)
  {
  }

  lemma UseKeepsRequests(cfg: Config, s: Node, id: nat)
    requires |s.epochs| == |s.boots| > 0 && id in s.requests && s.requests[id].Stamped? && RequestsOk(s)
    ensures RequestsOk(UseFor(cfg, s, id))
  {
    hide Replay.Consume, Targets;
    var t := UseFor(cfg, s, id);
    forall i | i in t.requests ensures RequestOk(t, t.requests[i]) {
      assert RequestOk(s, s.requests[i]);
    }
  }

  lemma UseKeepsCache(cfg: Config, s: Node, id: nat)
    requires |s.epochs| == |s.boots| > 0 && id in s.requests && s.requests[id].Stamped? && CacheOk(cfg, s)
    ensures CacheOk(cfg, UseFor(cfg, s, id))
    ensures UseFor(cfg, s, id).admissions != s.admissions ==>
              Replay.AdmittedAt(cfg.maxLive, UseFor(cfg, s, id).boots[Current(s)], |s.boots[Current(s)]|)
  {
    hide Replay.Consume;
    var before := s.boots[Current(s)];
    var calls := before + [CallOf(s.requests[id])];
    assert calls[..|before|] == before;
  }

  lemma UseKeepsCalls(cfg: Config, s: Node, id: nat)
    requires |s.epochs| == |s.boots| > 0 && id in s.requests && s.requests[id].Stamped?
    requires CallsIssued(s) && RequestOk(s, s.requests[id])
    ensures CallsIssued(UseFor(cfg, s, id))
  {
    hide Replay.Consume, Targets;
    var t := UseFor(cfg, s, id);
    assert Presents(t.issued, CallOf(s.requests[id]), s.requests[id].claims);
    forall b, k | 0 <= b < |t.boots| && 0 <= k < |t.boots[b]| ensures CallIssued(t.issued, t.boots[b][k]) {
      if b != Current(s) || k < |s.boots[b]| {
        assert CallIssued(s.issued, s.boots[b][k]);
      }
    }
  }

  lemma UseKeepsAdmissions(cfg: Config, s: Node, id: nat)
    requires |s.epochs| == |s.boots| > 0 && id in s.requests && s.requests[id].Stamped?
    requires CacheOk(cfg, s) && AdmissionsOk(cfg, s) && RequestOk(s, s.requests[id])
    ensures AdmissionsOk(cfg, UseFor(cfg, s, id))
  {
    hide Replay.Consume, Replay.AdmittedAt, Targets, AdmissionOk, CacheOk;
    var t := UseFor(cfg, s, id);
    UseKeepsCache(cfg, s, id);
    forall i | 0 <= i < |t.admissions| ensures AdmissionOk(cfg, t, t.admissions[i]) {
      if i < |s.admissions| {
        AdmissionSurvives(cfg, s, t, s.admissions[i]);
      } else {
        NewAdmissionOk(cfg, s, id);
      }
    }
    forall i | 0 <= i < |s.admissions|
      ensures s.admissions[i].boot == Current(s) ==> s.admissions[i].index < |s.boots[Current(s)]|
    {
      AdmissionWithin(cfg, s, s.admissions[i]);
    }
  }

  lemma AdmissionWithin(cfg: Config, s: Node, a: Admission)
    requires |s.epochs| == |s.boots| && AdmissionOk(cfg, s, a)
    ensures a.boot < |s.boots| && a.index < |s.boots[a.boot]|
  {
  }

  lemma NewAdmissionOk(cfg: Config, s: Node, id: nat)
    requires |s.epochs| == |s.boots| > 0 && id in s.requests && s.requests[id].Stamped? && RequestOk(s, s.requests[id])
    requires Replay.AdmittedAt(cfg.maxLive, UseFor(cfg, s, id).boots[Current(s)], |s.boots[Current(s)]|)
    ensures AdmissionOk(cfg, UseFor(cfg, s, id), Admission(Current(s), |s.boots[Current(s)]|, s.requests[id].claims))
  {
    hide Replay.Consume, Replay.AdmittedAt, Targets;
  }

  lemma AdmissionSurvives(cfg: Config, s: Node, t: Node, a: Admission)
    requires |s.epochs| == |s.boots| > 0 && AdmissionOk(cfg, s, a)
    requires t.epochs == s.epochs && t.issued == s.issued && |t.boots| == |s.boots|
    requires forall b | 0 <= b < |s.boots| :: s.boots[b] <= t.boots[b]
    ensures AdmissionOk(cfg, t, a)
  {
    assert s.boots[a.boot][..a.index] == t.boots[a.boot][..a.index];
  }

  lemma StepKeepsInv(cfg: Config, s: Node, step: Step)
    requires Inv(cfg, s) && Enabled(cfg, s, step)
    ensures Inv(cfg, Take(cfg, s, step))
  {
    hide Inv, Enabled, Take;
    match step
    case Mutates(m, p) => MutatesKeepsInv(cfg, s, m, p);
    case Restarts(e) => RestartsKeepsInv(cfg, s, e);
    case Closes => ClosesKeepsInv(cfg, s);
    case BeginsDrain => QuietStepKeepsInv(cfg, s, step);
    case Resolves(_) => QuietStepKeepsInv(cfg, s, step);
    case Issues(_, _, _, _, _, _, _, _) => IssuesKeepsInv(cfg, s, step);
    case Authenticates(_, _, _, _, _) => AuthenticatesKeepsInv(cfg, s, step);
    case Acquires(id) => AcquiresKeepsInv(cfg, s, id);
    case Stamps(_, _, _) => StampsKeepsInv(cfg, s, step);
    case Uses(id) => UsesKeepsInv(cfg, s, id);
    case Finishes(id) => FinishesKeepsInv(cfg, s, id);
  }

  // ---------- Every run ----------

  lemma InitInv(cfg: Config, s: Node)
    requires Init(s)
    ensures Inv(cfg, s)
  {
    hide Ledger.Inv;
    assert Counted(s.ledger, s.requests) by {
      forall key ensures ActiveCount(s.ledger, key) == |Holders(s.requests, key)| {
        assert Holders(s.requests, key) == {};
      }
    }
  }

  lemma {:induction false} RunInv(cfg: Config, run: seq<Node>, i: nat)
    requires IsRun(cfg, run) && i < |run|
    ensures Inv(cfg, run[i])
    decreases i
  {
    hide Inv, Init, Enabled, Take;
    if i == 0 {
      InitInv(cfg, run[0]);
    } else {
      RunInv(cfg, run, i - 1);
      var step := StepTaken(cfg, run[i - 1], run[i]);
      StepKeepsInv(cfg, run[i - 1], step);
    }
  }

  lemma StepTaken(cfg: Config, s: Node, t: Node) returns (step: Step)
    requires Next(cfg, s, t)
    ensures |s.epochs| == |s.boots| > 0 && Enabled(cfg, s, step) && t == Take(cfg, s, step)
  {
    hide Enabled, Take;
    step :| Enabled(cfg, s, step) && t == Take(cfg, s, step);
  }

  lemma StepExtends(cfg: Config, s: Node, step: Step)
    requires Inv(cfg, s) && Enabled(cfg, s, step)
    ensures Ledger.Extends(s.ledger.mem, Take(cfg, s, step).ledger.mem)
  {
    hide Ledger.Extends, Ledger.Update, Ledger.ValidDisk, Ledger.LeasesHeld, Counted, AdmissionsOk, CallsIssued,
         RequestsOk;
    Ledger.ExtendsReflexive(s.ledger.mem);
    if step.Mutates? {
      Ledger.UpdateKeepsInv(s.ledger, step.mutation, step.persist);
    }
  }

  lemma {:induction false} RunExtends(cfg: Config, run: seq<Node>, i: nat, j: nat)
    requires IsRun(cfg, run) && i <= j < |run|
    ensures Ledger.Extends(run[i].ledger.mem, run[j].ledger.mem)
    decreases j
  {
    hide Inv, Init, Enabled, Take, Ledger.Extends;
    if i == j {
      RunInv(cfg, run, i);
      MemoryValid(cfg, run[i]);
      Ledger.ExtendsReflexive(run[i].ledger.mem);
    } else {
      RunExtends(cfg, run, i, j - 1);
      RunInv(cfg, run, j - 1);
      var step := StepTaken(cfg, run[j - 1], run[j]);
      StepExtends(cfg, run[j - 1], step);
      Ledger.ExtendsTransitive(run[i].ledger.mem, run[j - 1].ledger.mem, run[j].ledger.mem);
    }
  }

  lemma MemoryValid(cfg: Config, s: Node)
    requires Inv(cfg, s)
    ensures Ledger.ValidDisk(s.ledger.mem)
  {
    hide Ledger.ValidDisk, Ledger.Extends, Ledger.LeasesHeld, Counted, AdmissionsOk, CallsIssued, RequestsOk;
  }

  /** Whatever writes fail and whenever the process is lost, the served generation clock never goes back. */
  lemma GenerationClockNeverReturns(cfg: Config, run: seq<Node>, i: nat, j: nat)
    requires IsRun(cfg, run) && i <= j < |run|
    ensures run[i].ledger.mem.lastGeneration <= run[j].ledger.mem.lastGeneration
  {
    hide IsRun;
    RunExtends(cfg, run, i, j);
  }

  /** A generation served anywhere in a run always names the same route, project and sandbox and, until
      it is released, the same engine. */
  lemma GenerationNamesOneAssignment(cfg: Config, run: seq<Node>, i: nat, j: nat, r: string, q: string)
    requires IsRun(cfg, run) && i < |run| && j < |run|
    requires r in run[i].ledger.mem.routes && q in run[j].ledger.mem.routes
    requires run[i].ledger.mem.routes[r].generation == run[j].ledger.mem.routes[q].generation
    ensures var e, f := run[i].ledger.mem.routes[r], run[j].ledger.mem.routes[q];
            && r == q && e.projectId == f.projectId && e.sandboxId == f.sandboxId
            && (e.state != Ledger.Released && f.state != Ledger.Released ==> e.engineId == f.engineId)
  {
    hide IsRun, Inv;
    if i <= j {
      OneAssignment(cfg, run, i, j, r, q);
    } else {
      OneAssignment(cfg, run, j, i, q, r);
    }
  }

  lemma OneAssignment(cfg: Config, run: seq<Node>, i: nat, j: nat, r: string, q: string)
    requires IsRun(cfg, run) && i <= j < |run|
    requires r in run[i].ledger.mem.routes && q in run[j].ledger.mem.routes
    requires run[i].ledger.mem.routes[r].generation == run[j].ledger.mem.routes[q].generation
    ensures r == q && Ledger.SameAssignment(run[i].ledger.mem.routes[r], run[j].ledger.mem.routes[q])
  {
    hide IsRun, Inv, SafeName, Ledger.ValidEngineId;
    RunExtends(cfg, run, i, j);
    RunInv(cfg, run, i);
    MemoryValid(cfg, run[i]);
    var d := run[i].ledger.mem;
    assert Ledger.ValidEntry(r, d.routes[r], d.lastGeneration);
    assert q in d.routes && Ledger.SameAssignment(d.routes[q], run[j].ledger.mem.routes[q]);
    assert r != q ==> Ledger.Compatible(d.routes[r], d.routes[q]);
  }

  /** Within one generation a route only moves on: attaching is left for good, a parked route is never served again
      but by a fresh generation, release is final, and recorded activity does not go back. */
  lemma GenerationMovesOn(cfg: Config, run: seq<Node>, i: nat, j: nat, r: string)
    requires IsRun(cfg, run) && i <= j < |run| && r in run[i].ledger.mem.routes && r in run[j].ledger.mem.routes
    requires run[i].ledger.mem.routes[r].generation == run[j].ledger.mem.routes[r].generation
    ensures var e, f := run[i].ledger.mem.routes[r], run[j].ledger.mem.routes[r];
            && (e.state != Ledger.Attaching ==> f.state != Ledger.Attaching)
            && (e.state == Ledger.Standby ==> f.state in {Ledger.Standby, Ledger.Released})
            && (e.state == Ledger.Released ==> f.state == Ledger.Released)
            && e.lastActivity <= f.lastActivity
  {
    hide IsRun, Inv;
    OneAssignment(cfg, run, i, j, r, r);
  }

  /** A lookup reports the route as the ledger has it, and the epoch of the running process. */
  lemma ResolveReports(cfg: Config, s: Node, routeId: string)
    requires |s.epochs| == |s.boots| > 0 && Enabled(cfg, s, Resolves(routeId))
    ensures var t := Take(cfg, s, Resolves(routeId));
            && routeId in s.ledger.mem.routes
            && var e := s.ledger.mem.routes[routeId];
               var seen := RouteResponse(s.epochs[|s.epochs| - 1], e.routeId, e.projectId, e.sandboxId, e.generation,
                                         e.state);
               t == s.(resolved := s.resolved + {seen})
  {
    hide SafeName;
  }

  /** A capability is issued only on a lookup that saw the authorized route ready at the authorized generation, and it
      names that route, generation and epoch. */
  lemma IssueNeedsReadyRoute(cfg: Config, s: Node, step: Step)
    requires |s.epochs| == |s.boots| > 0 && step.Issues? && Enabled(cfg, s, step)
    ensures var c, seen := IssuedClaims(cfg, step).value, step.response;
            && seen in s.resolved && seen.state == Ledger.Ready && seen.generation == step.auth.generation > 0
            && seen.routeId == step.auth.routeId && seen.projectId == step.auth.projectId
            && seen.sandboxId == step.auth.sandboxId
            && c.routeId == seen.routeId && c.generation == seen.generation && c.projectId == seen.projectId
            && c.sandboxId == seen.sandboxId && c.bootEpoch == seen.bootEpoch && c.operation == step.operation
            && c.requestDigest == step.digest && c.audience == cfg.audience && c.nodeId == cfg.nodeId
            && Take(cfg, s, step).issued == s.issued[c := step.auth]
  {
    hide SafeName, Cap.ValidIdentity, Cap.ValidClaims, Cap.ClampTtl, FreshJti;
  }

  /** What a request must show to be let in at all. */
  lemma AuthenticationNeeds(cfg: Config, s: Node, step: Step)
    requires |s.epochs| == |s.boots| > 0 && step.Authenticates? && Enabled(cfg, s, step)
    ensures && step.claims in s.issued && !s.draining && step.id !in s.requests
            && step.claims.bootEpoch == s.epochs[|s.epochs| - 1] && step.claims.audience == cfg.audience
            && step.claims.nodeId == cfg.nodeId && step.claims.routeId == step.routeId
            && step.claims.operation == step.operation && step.claims.keyId == cfg.keyId
            && step.claims.issuer == cfg.issuer
            && step.claims.notBefore * 1_000_000_000 <= step.now < step.claims.expiresAt * 1_000_000_000
  {
    hide Cap.Authenticate, Cap.ValidClaims;
    Cap.AuthenticateExactly(cfg.issuer, {cfg.keyId}, step.claims, step.now);
  }

  /** A request reaches the replay cache only if its claims agree with the leased route and the body it carries. */
  lemma StampNeeds(cfg: Config, s: Node, step: Step)
    requires |s.epochs| == |s.boots| > 0 && step.Stamps? && Enabled(cfg, s, step)
    ensures && step.id in s.requests && s.requests[step.id].Leased?
            && var c, e := s.requests[step.id].claims, s.requests[step.id].entry;
               && c.requestDigest == step.digest && c.bootEpoch == s.epochs[|s.epochs| - 1]
               && c.audience == cfg.audience && c.nodeId == cfg.nodeId && c.routeId == e.routeId
               && c.generation == e.generation && c.projectId == e.projectId && c.sandboxId == e.sandboxId
               && e.engineId != ""
  {
    hide Cap.Match, Cap.ValidClaims, Cap.ValidExpected;
    var c := s.requests[step.id].claims;
    Cap.MatchExactly(cfg.issuer, c, ExpectedAt(cfg, s.epochs[Current(s)], s.requests[step.id].entry, c.operation,
                                               step.digest));
  }

  /** A restart serves what the file holds, under a new epoch, with no lease, request or cached identifier, and not
      draining. */
  lemma RestartLeaves(cfg: Config, s: Node, epoch: string)
    requires |s.epochs| == |s.boots| > 0 && Enabled(cfg, s, Restarts(epoch))
    ensures var t := Take(cfg, s, Restarts(epoch));
            && t.ledger.mem == s.ledger.disk && t.ledger.disk == s.ledger.disk && t.ledger.active == map[]
            && !t.ledger.closed
            && t.requests == map[] && t.cache == map[] && !t.draining
            && t.epochs == s.epochs + [epoch] && epoch !in s.epochs && t.boots == s.boots + [[]]
  {
  }

  /** A request that gets its lease goes on with the ledger's own entry; one that does not is gone. */
  lemma AcquireLeaves(s: Node, id: nat)
    requires id in s.requests
    ensures var t, c := AcquireFor(s, id), s.requests[id].claims;
            if Ledger.Grantable(s.ledger, c.routeId, c.projectId, c.sandboxId, c.generation) then
              t.requests == s.requests[id := Leased(c, s.ledger.mem.routes[c.routeId])]
            else t.requests == s.requests - {id} && t.ledger == s.ledger
  {
    hide Ledger.Acquire, Ledger.Grantable;
    var c := s.requests[id].claims;
    Ledger.AcquireExactly(s.ledger, c.routeId, c.projectId, c.sandboxId, c.generation);
    GrantableServed(s.ledger, c.routeId, c.projectId, c.sandboxId, c.generation);
  }

  lemma GrantableServed(v: Ledger.View, routeId: string, projectId: string, sandboxId: string, generation: nat)
    ensures Ledger.Grantable(v, routeId, projectId, sandboxId, generation) ==> routeId in v.mem.routes
  {
    hide SafeName;
  }

  /** A request runs exactly if the cache admits it, and then the admission is on record; otherwise it is refused. */
  lemma UseLeaves(cfg: Config, s: Node, id: nat)
    requires |s.boots| > 0 && id in s.requests && s.requests[id].Stamped?
    ensures var t, r := UseFor(cfg, s, id), s.requests[id];
            var admitted := Replay.Consume(s.cache, cfg.maxLive, CallOf(r)).1 == Replay.Admitted;
            && t.requests == s.requests[id := if admitted then Running(r.claims, r.entry)
                                        else Refused(r.claims, r.entry)]
            && t.admissions == s.admissions
                               + (if admitted then [Admission(Current(s), |s.boots[Current(s)]|, r.claims)] else [])
            && t.ledger == s.ledger
  {
    hide Replay.Consume;
  }

  // ---------- Draining ----------

  /** A step gives no lease on a draining route. */
  lemma DrainingStep(cfg: Config, s: Node, step: Step, key: Ledger.OperationKey)
    requires |s.epochs| == |s.boots| > 0 && Enabled(cfg, s, step)
    requires key.routeId in s.ledger.mem.routes && s.ledger.mem.routes[key.routeId].state == Ledger.Draining
    ensures ActiveCount(Take(cfg, s, step).ledger, key) <= ActiveCount(s.ledger, key)
  {
    hide Ledger.Update, Ledger.Acquire, Ledger.Release, Replay.Consume, Cap.Authenticate, Cap.Match, SafeName,
         Ledger.ValidIdentity;
    match step
    case Mutates(m, p) => UpdateKeepsLeases(s.ledger, m, p);
    case Acquires(id) =>
      var c := s.requests[id].claims;
      Ledger.AcquireExactly(s.ledger, c.routeId, c.projectId, c.sandboxId, c.generation);
    case Finishes(id) => Ledger.ReleaseExactly(s.ledger, Ledger.KeyOf(s.requests[id].entry));
    case _ =>
  }

  /** While a route stays draining at one generation its lease count never rises, so the drain can end. */
  lemma {:induction false} DrainingLeasesOnlyFall(cfg: Config, run: seq<Node>, i: nat, j: nat, key: Ledger.OperationKey)
    requires IsRun(cfg, run) && i <= j < |run|
    requires forall t | i <= t <= j ::
               Ledger.Holds(run[t].ledger.mem, key) && run[t].ledger.mem.routes[key.routeId].state == Ledger.Draining
    ensures ActiveCount(run[j].ledger, key) <= ActiveCount(run[i].ledger, key)
    decreases j
  {
    hide Init, Inv, Enabled, Take, ActiveCount;
    if i < j {
      DrainingLeasesOnlyFall(cfg, run, i, j - 1, key);
      RunInv(cfg, run, j - 1);
      RunShape(cfg, run, j - 1);
      var step := StepTaken(cfg, run[j - 1], run[j]);
      DrainingStep(cfg, run[j - 1], step, key);
    }
  }

  lemma RunShape(cfg: Config, run: seq<Node>, i: nat)
    requires IsRun(cfg, run) && i < |run|
    ensures |run[i].epochs| == |run[i].boots| > 0
  {
    hide IsRun, Ledger.Inv, RequestsOk, Counted, CallsIssued, CacheOk, AdmissionsOk;
    RunInv(cfg, run, i);
  }

  /** A draining route of an open ledger can be parked exactly when no request in flight holds it. */
  lemma DrainEndsWithLastRequest(cfg: Config, run: seq<Node>, i: nat, r: string)
    requires IsRun(cfg, run) && i < |run| && r in run[i].ledger.mem.routes && !run[i].ledger.closed
    requires run[i].ledger.mem.routes[r].state == Ledger.Draining
    ensures var e := run[i].ledger.mem.routes[r];
            Ledger.Update(run[i].ledger, Ledger.Transition(r, e.generation, Ledger.Draining, Ledger.Standby),
                          Ledger.Synced).1.Ok?
            <==> forall id | InFlight(run[i], id) :: Ledger.KeyOf(run[i].requests[id].entry) != Ledger.KeyOf(e)
  {
    hide IsRun, Ledger.Inv, RequestsOk, CallsIssued, CacheOk, AdmissionsOk, Ledger.Update, Ledger.WellFormed, SafeName;
    var s, e := run[i], run[i].ledger.mem.routes[r];
    RunInv(cfg, run, i);
    MemoryValid(cfg, s);
    EntryIsSafe(s.ledger.mem, r);
    Ledger.TransitionExactly(s.ledger, r, e.generation, Ledger.Draining, Ledger.Standby, Ledger.Synced);
    var holders := Holders(s.requests, Ledger.KeyOf(e));
    assert ActiveCount(s.ledger, Ledger.KeyOf(e)) == |holders|;
    assert |holders| == 0 <==> holders == {};
    forall id | InFlight(s, id) ensures id in holders <==> Ledger.KeyOf(s.requests[id].entry) == Ledger.KeyOf(e) {
    }
    assert forall id | id in holders :: InFlight(s, id);
  }

  /** Once a node begins to drain, no new request gets in until it restarts. */
  lemma {:induction false} DrainingNodeAdmitsNoRequest(cfg: Config, run: seq<Node>, i: nat, j: nat)
    requires IsRun(cfg, run) && i <= j < |run| && run[i].draining && |run[j].boots| == |run[i].boots|
    ensures run[j].draining && run[j].requests.Keys <= run[i].requests.Keys
    decreases j
  {
    hide Init, Inv, Enabled, Take;
    if i < j {
      RunShape(cfg, run, j - 1);
      var step := StepTaken(cfg, run[j - 1], run[j]);
      BootsOnlyGrow(cfg, run, i, j - 1);
      DrainStep(cfg, run[j - 1], step);
      DrainingNodeAdmitsNoRequest(cfg, run, i, j - 1);
    }
  }

  lemma DrainStep(cfg: Config, s: Node, step: Step)
    requires |s.epochs| == |s.boots| > 0 && Enabled(cfg, s, step)
    ensures var t := Take(cfg, s, step);
            && |s.boots| <= |t.boots|
            && (s.draining && |t.boots| == |s.boots| ==> t.draining && t.requests.Keys <= s.requests.Keys)
  {
    hide Ledger.Update, Ledger.Acquire, Ledger.Release, Replay.Consume, Cap.Authenticate, Cap.Match, SafeName,
         Ledger.ValidIdentity;
  }

  lemma {:induction false} BootsOnlyGrow(cfg: Config, run: seq<Node>, i: nat, j: nat)
    requires IsRun(cfg, run) && i <= j < |run|
    ensures |run[i].boots| <= |run[j].boots|
    decreases j
  {
    hide Init, Inv, Enabled, Take;
    if i < j {
      BootsOnlyGrow(cfg, run, i, j - 1);
      RunShape(cfg, run, j - 1);
      var step := StepTaken(cfg, run[j - 1], run[j]);
      DrainStep(cfg, run[j - 1], step);
    }
  }

  predicate InFlight(s: Node, id: nat) {
    id in s.requests && HasLease(s.requests[id])
  }

  lemma InFlightOk(cfg: Config, s: Node, id: nat)
    requires Inv(cfg, s) && InFlight(s, id)
    ensures RequestOk(s, s.requests[id]) && Named(s.requests[id].claims, s.issued[s.requests[id].claims])
    ensures Ledger.KeyOf(s.requests[id].entry) in s.ledger.active
    ensures Ledger.Inv(s.ledger)
  {
    hide Ledger.Inv, Targets, AdmissionsOk, CallsIssued, Counted;
    HolderIsActive(s.ledger, s.requests, id);
  }

  /** In every reachable state, an admitted operation stands on a ready or draining route that still has
      the generation the API authorized and the engine the operation was given. */
  lemma OperationIsFenced(cfg: Config, run: seq<Node>, i: nat, id: nat)
    requires IsRun(cfg, run) && i < |run| && InFlight(run[i], id)
    ensures var s, r := run[i], run[i].requests[id];
            && r.claims in s.issued && r.entry.generation == s.issued[r.claims].generation
            && r.entry.routeId in s.ledger.mem.routes
            && var now := s.ledger.mem.routes[r.entry.routeId];
               && now.generation == s.issued[r.claims].generation && now.engineId == r.entry.engineId
               && now.projectId == s.issued[r.claims].projectId && now.sandboxId == s.issued[r.claims].sandboxId
               && now.state in {Ledger.Ready, Ledger.Draining}
  {
    hide IsRun, Inv;
    RunInv(cfg, run, i);
    InFlightOk(cfg, run[i], id);
  }

  /** The engine an operation runs on is the engine of the authorized generation wherever in the run that
      generation is served, before the operation or after it. */
  lemma OperationRunsOnAuthorizedEngine(cfg: Config, run: seq<Node>, i: nat, id: nat, j: nat, q: string)
    requires IsRun(cfg, run) && i < |run| && j < |run| && InFlight(run[i], id)
    requires run[i].requests[id].claims in run[i].issued && q in run[j].ledger.mem.routes
    requires run[j].ledger.mem.routes[q].generation == run[i].issued[run[i].requests[id].claims].generation
    requires run[j].ledger.mem.routes[q].state != Ledger.Released
    ensures run[j].ledger.mem.routes[q].engineId == run[i].requests[id].entry.engineId
    ensures q == run[i].requests[id].claims.routeId
  {
    hide IsRun, Inv;
    OperationIsFenced(cfg, run, i, id);
    RunInv(cfg, run, i);
    InFlightOk(cfg, run[i], id);
    GenerationNamesOneAssignment(cfg, run, i, j, run[i].requests[id].entry.routeId, q);
  }

  /** While an operation is in flight no mutation takes its route to standby, to released or to another
      generation, and the ledger refuses to close; returning the lease never fails. */
  lemma OperationHoldsItsRoute(cfg: Config, run: seq<Node>, i: nat, id: nat, m: Ledger.Mutation, p: Ledger.Persist)
    requires IsRun(cfg, run) && i < |run| && InFlight(run[i], id)
    ensures var s, e := run[i], run[i].requests[id].entry;
            var after := Ledger.Update(s.ledger, m, p).0.mem;
            && e.routeId in after.routes && after.routes[e.routeId].generation == e.generation
            && after.routes[e.routeId].engineId == e.engineId
            && after.routes[e.routeId].state in {Ledger.Ready, Ledger.Draining}
            && Ledger.Close(s.ledger).1 == Ledger.Some(Ledger.ActiveOperations)
            && Ledger.Release(s.ledger, Ledger.KeyOf(e)).1 == Ledger.None
  {
    hide IsRun, Inv, Ledger.Update, Ledger.Inv, Ledger.WellFormed, Ledger.LeasesHeld, Ledger.Extends;
    var s := run[i];
    RunInv(cfg, run, i);
    InFlightOk(cfg, s, id);
    Ledger.UpdateKeepsInv(s.ledger, m, p);
    UpdateKeepsLeases(s.ledger, m, p);
    LedgerParts(s.ledger);
    LedgerParts(Ledger.Update(s.ledger, m, p).0);
    TargetsExtend(s.ledger.mem, Ledger.Update(s.ledger, m, p).0.mem, s.ledger.active, s.requests[id].entry);
    Ledger.LiveReleaseSucceeds(s.ledger, Ledger.KeyOf(s.requests[id].entry));
    ClosedHoldsNothing(s.ledger, Ledger.KeyOf(s.requests[id].entry));
  }

  lemma ClosedHoldsNothing(v: Ledger.View, key: Ledger.OperationKey)
    requires Ledger.Inv(v) && key in v.active
    ensures !v.closed && v.active != map[]
  {
    hide Ledger.ValidDisk, Ledger.Extends, Ledger.LeasesHeld;
  }

  /** The check a data-plane call makes of its binding just before it reaches the engine. */
  predicate BindingCurrent(s: Node, id: nat, projectId: string, sandboxId: string, engineId: string, revision: int) {
    && id in s.requests && s.requests[id].Running?
    && revision >= 1 && revision == s.requests[id].entry.generation
    && !s.ledger.closed && SafeName(s.requests[id].entry.routeId) && s.requests[id].entry.routeId in s.ledger.mem.routes
    && var now := s.ledger.mem.routes[s.requests[id].entry.routeId];
       && now.projectId == projectId && now.sandboxId == sandboxId && now.generation == s.requests[id].entry.generation
       && now.state in {Ledger.Ready, Ledger.Draining}
       && now.engineId == s.requests[id].entry.engineId == engineId
  }

  /** A running operation's own binding passes that check until the operation ends, whatever the node's
      administrators do meanwhile; nothing else passes it. */
  lemma RunningBindingIsCurrent(cfg: Config, run: seq<Node>, i: nat, id: nat,
                                projectId: string, sandboxId: string, engineId: string, revision: int)
    requires IsRun(cfg, run) && i < |run|
    ensures BindingCurrent(run[i], id, projectId, sandboxId, engineId, revision) <==>
            && id in run[i].requests && run[i].requests[id].Running?
            && var r := run[i].requests[id];
               projectId == r.claims.projectId && sandboxId == r.claims.sandboxId && engineId == r.entry.engineId
               && revision == r.claims.generation
  {
    hide IsRun, Inv;
    RunInv(cfg, run, i);
    if id in run[i].requests && run[i].requests[id].Running? {
      var s := run[i];
      InFlightOk(cfg, s, id);
      ClosedHoldsNothing(s.ledger, Ledger.KeyOf(s.requests[id].entry));
      LedgerParts(s.ledger);
      EntryIsSafe(s.ledger.mem, s.requests[id].entry.routeId);
    }
  }

  lemma EntryIsSafe(d: Ledger.DiskState, r: string)
    requires Ledger.WellFormed(d) && r in d.routes
    ensures SafeName(r) && d.routes[r].generation >= 1
  {
    assert Ledger.ValidEntry(r, d.routes[r], d.lastGeneration);
  }

  // ---------- One capability, one admission ----------

  ghost predicate SameCapability(s: Node, x: nat, y: nat) {
    x < |s.admissions| && y < |s.admissions| && x != y && s.admissions[x].claims == s.admissions[y].claims
  }

  lemma OneExpiryPerBoot(cfg: Config, s: Node, b: nat, c: Cap.Claims)
    requires Inv(cfg, s) && b < |s.boots| && c in s.issued
    ensures Replay.OneExpiry(s.boots[b], c.jti, c.expiresAt * Cap.NANOS)
  {
    hide Ledger.Inv, RequestsOk, Counted, AdmissionsOk, CacheOk;
    forall k | 0 <= k < |s.boots[b]| && s.boots[b][k].jti == c.jti
      ensures s.boots[b][k].expiresAt == c.expiresAt * Cap.NANOS
    {
      assert CallIssued(s.issued, s.boots[b][k]);
      var d :| Presents(s.issued, s.boots[b][k], d);
      assert d == c;
    }
  }

  /** No capability is admitted by two boots, because a restart changes the epoch; within one boot it is
      admitted twice only if the later request read the clock short of the expiry, and some request that
      had read it at or past the expiry took the cache's lock in between. */
  lemma SecondAdmissionIsOvertaken(cfg: Config, run: seq<Node>, i: nat, x: nat, y: nat)
    requires IsRun(cfg, run) && i < |run| && SameCapability(run[i], x, y)
    ensures var s, a, b := run[i], run[i].admissions[x], run[i].admissions[y];
            && a.boot == b.boot < |s.boots|
            && exists m, j, k ::
              {j, k} == {a.index, b.index}
              && Replay.Overtaken(cfg.maxLive, s.boots[a.boot], a.claims.jti, j, m, k)
  {
    hide IsRun, Ledger.Inv, RequestsOk, Counted, CallsIssued, CacheOk, Replay.AdmittedAt;
    RunInv(cfg, run, i);
    var s, a, b := run[i], run[i].admissions[x], run[i].admissions[y];
    assert AdmissionOk(cfg, s, a) && AdmissionOk(cfg, s, b);
    assert a.boot == b.boot;
    assert a.index != b.index;
    OneExpiryPerBoot(cfg, s, a.boot, a.claims);
    var j, k := if a.index < b.index then a.index else b.index, if a.index < b.index then b.index else a.index;
    assert Replay.AdmittedTwice(cfg.maxLive, s.boots[a.boot], a.claims.jti, j, k);
    Replay.SecondAdmissionIsOvertaken(cfg.maxLive, s.boots[a.boot], a.claims.jti, a.claims.expiresAt * Cap.NANOS, j, k);
    var m :| Replay.Overtaken(cfg.maxLive, s.boots[a.boot], a.claims.jti, j, m, k);
    assert {j, k} == {a.index, b.index};
  }

  /** If in each boot requests take the cache's lock in the order of their clock readings, no capability
      admits two operations in any run, restarts included. */
  lemma CapabilityAdmitsOnce(cfg: Config, run: seq<Node>, i: nat, x: nat, y: nat)
    requires IsRun(cfg, run) && i < |run|
    requires forall b | 0 <= b < |run[i].boots| :: Replay.ReadingsFollowLock(run[i].boots[b])
    ensures !SameCapability(run[i], x, y)
  {
    hide IsRun, Replay.AdmittedAt, Replay.OutcomeAt;
    if SameCapability(run[i], x, y) {
      SecondAdmissionIsOvertaken(cfg, run, i, x, y);
    }
  }
}
