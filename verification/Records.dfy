/** The control plane's durable state (internal/domain/types.go, internal/store/store.go): resource rows,
    idempotency claims and event rows, and what `validateState` demands of them. Row keys are kept as
    their parts; `Identifiers.ScopedKeyInjective` and `IdempotencyKeyInjective` are why that loses nothing. */
module Records {
  import opened Identifiers

  datatype Option<+T> = None | Some(value: T)

  datatype Kind = EnvironmentKind | SandboxKind | OperationKind | CheckpointKind | WorkspaceKind | ConnectorKind

  datatype SandboxState = Requested | Preparing | Running | Pausing | Standby | Resuming | Deleting | Deleted
                        | Expired | Failed | Unknown

  datatype WorkspaceState = WorkspacePreparing | WorkspaceReady | WorkspaceDeleting | WorkspaceDeleted
                          | WorkspaceFailed | WorkspaceUnknown

  datatype OperationState = Pending | InProgress | Succeeded | OperationFailed

  /** `body` is the rest of a payload. Times are integers. */
  datatype Resource =
    | Environment(projectId: string, id: string, body: string)
    | Sandbox(projectId: string, id: string, state: SandboxState, mounts: seq<string>,
              nodeId: string, routeId: string, generation: nat,
              revision: int, updatedAt: int, lastActiveAt: int, standbyEligibleAt: int,
              standbyAfter: int, standbyGrace: int, body: string)
    | Operation(projectId: string, id: string, kind: string, resourceId: string, progress: OperationState,
                idempotencyKey: string, createdAt: int, updatedAt: int, body: string)
    | Checkpoint(projectId: string, id: string, environmentRevision: string, backendRef: string, filesystem: bool,
                 body: string)
    | Workspace(projectId: string, id: string, backendName: string, standing: WorkspaceState, body: string)
    | Connector(projectId: string, id: string, body: string)

  datatype RowKey = RowKey(kind: Kind, projectId: string, id: string)

  datatype ClaimKey = ClaimKey(projectId: string, kind: string, key: string)

  datatype Claim = Claim(operationId: string, digest: string)

  datatype Stream = Stream(projectId: string, resourceId: string)

  datatype EventKey = EventKey(stream: Stream, sequence: int)

  /** `operationId` may be empty; `state` is the sandbox's state when the event was written. */
  datatype Event = Event(id: string, projectId: string, resourceId: string, operationId: string, sequence: int,
                         state: Option<SandboxState>, kind: string, at: int, body: string)

  datatype State = State(resources: map<RowKey, Resource>, claims: map<ClaimKey, Claim>, events: map<EventKey, Event>)

  function KindOf(r: Resource): Kind {
    match r
    case Environment(_, _, _) => EnvironmentKind
    case Sandbox(_, _, _, _, _, _, _, _, _, _, _, _, _, _) => SandboxKind
    case Operation(_, _, _, _, _, _, _, _, _) => OperationKind
    case Checkpoint(_, _, _, _, _, _) => CheckpointKind
    case Workspace(_, _, _, _, _) => WorkspaceKind
    case Connector(_, _, _) => ConnectorKind
  }

  function KeyOf(r: Resource): RowKey {
    RowKey(KindOf(r), r.projectId, r.id)
  }

  predicate Terminal(state: SandboxState) {
    state == Deleted || state == Expired || state == Failed
  }

  predicate NoControl(s: string) {
    !Contains(s, NUL) && !Contains(s, '\r') && !Contains(s, '\n')
  }

  predicate ValidId(id: string) {
    id != "" && forall i | 0 <= i < |id| :: id[i] != NUL && id[i] != '\r' && id[i] != '\n'
  }

  predicate ValidRow(key: RowKey, r: Resource) {
    && KeyOf(r) == key && SafeName(key.projectId) && ValidId(key.id)
    && (r.Sandbox? && (r.nodeId != "" || r.routeId != "" || r.generation != 0) ==>
          r.nodeId != "" && r.routeId != "" && r.generation != 0)
    && (r.Sandbox? ==> NoControl(r.nodeId) && NoControl(r.routeId))
  }

  predicate IsHex(c: char) {
    '0' <= c <= '9' || 'a' <= c <= 'f' || 'A' <= c <= 'F'
  }

  predicate ValidDigest(digest: string) {
    digest == "" || (|digest| == 64 && forall i | 0 <= i < |digest| :: IsHex(digest[i]))
  }

  function OperationKey(projectId: string, id: string): RowKey {
    RowKey(OperationKind, projectId, id)
  }

  /** A claim names an operation of its own project, kind and request key. */
  predicate Backed(resources: map<RowKey, Resource>, c: ClaimKey, claim: Claim) {
    var k := OperationKey(c.projectId, claim.operationId);
    && c.projectId != "" && c.kind != "" && c.key != "" && ValidDigest(claim.digest)
    && k in resources && resources[k].Operation?
    && resources[k].projectId == c.projectId && resources[k].kind == c.kind && resources[k].idempotencyKey == c.key
  }

  /** What an event must carry to be written at all. */
  predicate WritableEvent(e: Event) {
    && SafeName(e.projectId) && ValidId(e.id) && ValidId(e.resourceId) && NoControl(e.operationId)
    && !Blank(e.kind) && !Contains(e.kind, '\r') && !Contains(e.kind, '\n') && e.at != 0
  }

  predicate ValidEvent(k: EventKey, e: Event) {
    k == EventKey(Stream(e.projectId, e.resourceId), e.sequence) && WritableEvent(e) && e.sequence >= 1
  }

  ghost predicate ValidRows(resources: map<RowKey, Resource>) {
    forall k | k in resources :: ValidRow(k, resources[k])
  }

  ghost predicate ValidClaims(resources: map<RowKey, Resource>, claims: map<ClaimKey, Claim>) {
    forall c | c in claims :: Backed(resources, c, claims[c])
  }

  ghost predicate ValidEvents(events: map<EventKey, Event>) {
    forall k | k in events :: ValidEvent(k, events[k])
  }

  ghost predicate ValidState(s: State) {
    ValidRows(s.resources) && ValidClaims(s.resources, s.claims) && ValidEvents(s.events)
  }

  /** The validation loops decide `ValidState`, in whatever order the maps are visited. */
  method Validate(s: State) returns (ok: bool)
    ensures ok <==> ValidState(s)
  {
    hide SafeName, ValidId, Blank, ValidDigest;
    var rows := s.resources.Keys;
    while rows != {}
      invariant rows <= s.resources.Keys
      invariant forall k | k in s.resources && k !in rows :: ValidRow(k, s.resources[k])
      decreases rows
    {
      var k :| k in rows;
      if !ValidRow(k, s.resources[k]) {
        return false;
      }
      rows := rows - {k};
    }
    var claims := s.claims.Keys;
    while claims != {}
      invariant claims <= s.claims.Keys
      invariant forall c | c in s.claims && c !in claims :: Backed(s.resources, c, s.claims[c])
      decreases claims
    {
      var c :| c in claims;
      if !Backed(s.resources, c, s.claims[c]) {
        return false;
      }
      claims := claims - {c};
    }
    var events := s.events.Keys;
    while events != {}
      invariant events <= s.events.Keys
      invariant forall k | k in s.events && k !in events :: ValidEvent(k, s.events[k])
      decreases events
    {
      var k :| k in events;
      if !ValidEvent(k, s.events[k]) {
        return false;
      }
      events := events - {k};
    }
    return true;
  }

  /** In a valid state no two rows of a kind have the same stored key. */
  lemma StoredKeysAreDistinct(s: State, j: RowKey, k: RowKey)
    requires ValidState(s) && j in s.resources && k in s.resources && j.kind == k.kind
    ensures ScopedKey(j.projectId, j.id) == ScopedKey(k.projectId, k.id) ==> j == k
  {
    hide SafeName, ScopedKey, NoControl, ValidClaims, ValidEvents;
    assert ValidRow(j, s.resources[j]) && ValidRow(k, s.resources[k]);
    SafeNameHasNoNul(j.projectId);
    SafeNameHasNoNul(k.projectId);
    ScopedKeyInjective(j.projectId, j.id, k.projectId, k.id);
  }

  /** In a valid state a sandbox has its whole node assignment or none of it. */
  lemma AssignmentIsWhole(s: State, k: RowKey)
    requires ValidState(s) && k in s.resources && s.resources[k].Sandbox?
    ensures var r := s.resources[k];
            && (r.nodeId == "" <==> r.routeId == "") && (r.nodeId == "" <==> r.generation == 0)
            && (forall i | 0 <= i < |r.nodeId| :: r.nodeId[i] != NUL && r.nodeId[i] != '\r' && r.nodeId[i] != '\n')
            && (forall i | 0 <= i < |r.routeId| :: r.routeId[i] != NUL && r.routeId[i] != '\r' && r.routeId[i] != '\n')
  {
    hide SafeName, ValidId, ValidClaims, ValidEvents;
    assert ValidRow(k, s.resources[k]);
  }

  /** In a valid state every claim stands for an operation of its own project, kind and key, and its digest is
      absent or a full hash. */
  lemma ClaimStandsForOperation(s: State, c: ClaimKey)
    requires ValidState(s) && c in s.claims
    ensures var k := RowKey(OperationKind, c.projectId, s.claims[c].operationId);
            && k in s.resources && s.resources[k].Operation? && s.resources[k].id == s.claims[c].operationId
            && s.resources[k].projectId == c.projectId && s.resources[k].kind == c.kind
            && s.resources[k].idempotencyKey == c.key
    ensures s.claims[c].digest == "" || |s.claims[c].digest| == 64
    ensures c.kind != "" && c.key != ""
  {
    hide SafeName, ValidId, ValidEvents, NoControl;
    assert Backed(s.resources, c, s.claims[c]);
    var k := RowKey(OperationKind, c.projectId, s.claims[c].operationId);
    assert ValidRow(k, s.resources[k]);
  }

  /** In a valid state an event is where it says it is, from a named project and resource, with a kind and a time. */
  lemma EventIsWhereItSays(s: State, k: EventKey)
    requires ValidState(s) && k in s.events
    ensures var e := s.events[k];
            && k.stream == Stream(e.projectId, e.resourceId) && k.sequence == e.sequence >= 1
            && e.id != "" && e.resourceId != "" && |e.projectId| > 0 && e.kind != "" && e.at != 0
  {
    hide ValidRows, ValidClaims, NoControl;
    assert ValidEvent(k, s.events[k]);
  }

  // ---------- What two states differ in ----------

  /** The keys whose rows differ. */
  function Diff<K(!new), V(==)>(before: map<K, V>, after: map<K, V>): set<K> {
    set k | k in before.Keys + after.Keys && !(k in before && k in after && before[k] == after[k])
  }

  /** `base` with the changes from `before` to `after`. */
  function Overlay<K(!new), V(==)>(base: map<K, V>, before: map<K, V>, after: map<K, V>): map<K, V> {
    map k | k in base.Keys + after.Keys && (k in Diff(before, after) ==> k in after)
            && (k !in Diff(before, after) ==> k in base)
      :: if k in Diff(before, after) then after[k] else base[k]
  }
}
