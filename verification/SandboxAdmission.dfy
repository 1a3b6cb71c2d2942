/** Sandbox admission (internal/service/sandbox_admission.go, internal/store/sqlite_admission.go): the indexed
    read and the full scan describe the same state, so they lead to the same decision. */
module SandboxAdmission {
  import opened Identifiers
  import opened Records
  import opened AdmissionIndex
  import opened ScopedState
  import opened Store
  import Heads = LifecycleHeads

  const CREATE_SANDBOX: string := "create_sandbox"

  datatype Mount = Mount(workspaceId: string, path: string)

  datatype Input = Input(environmentRevision: string, checkpointId: string, connectors: seq<string>, mounts: seq<Mount>)

  datatype Query = Query(projectId: string, claim: ClaimKey, environmentRevision: string, checkpointId: string,
                         connectors: seq<string>, workspaces: seq<string>)

  datatype Limits = Limits(perProject: int, total: int)

  datatype Lookup = Unclaimed | Claimed(operation: Resource, digest: string)

  datatype Snapshot = Snapshot(lookup: Lookup, activeTotal: int, activeForProject: int, checkpoint: Option<Resource>,
                               environment: Option<Resource>, connectors: set<string>,
                               workspaces: map<string, Resource>,
                               attached: set<string>)

  datatype BackendMount = BackendMount(name: string, path: string)

  datatype Decision =
    | Replay(operation: Resource)
    | DifferentRequest
    | Quota
    | Capacity
    | NotFound
    | Denied
    | NotReady(workspaceId: string)
    | AlreadyAttached(workspaceId: string)
    | Admit(environment: Resource, checkpoint: Option<Resource>, mounts: seq<BackendMount>)

  function QueryFor(projectId: string, key: string, input: Input): Query {
    Query(projectId, ClaimKey(projectId, CREATE_SANDBOX, key), input.environmentRevision, input.checkpointId,
          input.connectors,
          seq(|input.mounts|, i requires 0 <= i < |input.mounts| => input.mounts[i].workspaceId))
  }

  predicate NoBreaks(s: string) {
    s == "" || ValidId(s)
  }

  /** What the indexed read demands of a query. */
  predicate ValidQuery(q: Query) {
    && SafeName(q.projectId) && q.claim.projectId == q.projectId && ValidId(q.claim.kind) && ValidId(q.claim.key)
    && NoBreaks(q.environmentRevision) && NoBreaks(q.checkpointId)
    && (forall i | 0 <= i < |q.connectors| :: NoBreaks(q.connectors[i]))
    && (forall i | 0 <= i < |q.workspaces| :: NoBreaks(q.workspaces[i]))
  }

  /** A query is refused for a bad project, a claim of another project, a missing or broken kind or key, and for any
      id that holds a separator; an id that is left out is fine. */
  lemma QueriesAre(q: Query)
    ensures ValidQuery(q) <==>
              && SafeName(q.projectId) && q.claim.projectId == q.projectId && q.claim.kind != "" && q.claim.key != ""
              && NoControl(q.claim.kind) && NoControl(q.claim.key)
              && NoControl(q.environmentRevision) && NoControl(q.checkpointId)
              && (forall i | 0 <= i < |q.connectors| :: NoControl(q.connectors[i]))
              && (forall i | 0 <= i < |q.workspaces| :: NoControl(q.workspaces[i]))
  {
    hide SafeName;
  }

  // ---------- What a snapshot should say ----------

  function Find(s: State, kind: Kind, projectId: string, id: string): Option<Resource> {
    var k := RowKey(kind, projectId, id);
    if k in s.resources then Some(s.resources[k]) else None
  }

  ghost function Active(rows: map<RowKey, Resource>): set<RowKey> {
    set k | k in rows && Occupies(rows[k])
  }

  ghost function ActiveIn(rows: map<RowKey, Resource>, projectId: string): set<RowKey> {
    set k | k in rows && Occupies(rows[k]) && rows[k].projectId == projectId
  }

  ghost predicate Attached(rows: map<RowKey, Resource>, projectId: string, workspaceId: string) {
    exists k | k in rows :: Occupies(rows[k]) && rows[k].projectId == projectId && workspaceId in rows[k].mounts
  }

  function RevisionFor(q: Query, checkpoint: Option<Resource>): string {
    if q.checkpointId != "" && checkpoint.Some? && checkpoint.value.Checkpoint? then
      checkpoint.value.environmentRevision
    else q.environmentRevision
  }

  function CheckpointFor(s: State, q: Query): Option<Resource> {
    if q.checkpointId == "" then None else Find(s, CheckpointKind, q.projectId, q.checkpointId)
  }

  function EnvironmentFor(s: State, q: Query): Option<Resource> {
    var revision := RevisionFor(q, CheckpointFor(s, q));
    if revision == "" then None else Find(s, EnvironmentKind, q.projectId, revision)
  }

  function LookupIn(s: State, c: ClaimKey): Lookup {
    if c !in s.claims then Unclaimed
    else
      var k := OperationKey(c.projectId, s.claims[c].operationId);
      if k in s.resources then Claimed(s.resources[k], s.claims[c].digest) else Unclaimed
  }

  /** A snapshot tells the truth about the state as far as the query asks. */
  ghost predicate Describes(snapshot: Snapshot, s: State, q: Query) {
    && snapshot.lookup == LookupIn(s, q.claim)
    && (snapshot.lookup == Unclaimed ==>
          && snapshot.activeTotal == |Active(s.resources)|
          && snapshot.activeForProject == |ActiveIn(s.resources, q.projectId)|
          && snapshot.checkpoint == CheckpointFor(s, q)
          && snapshot.environment == EnvironmentFor(s, q)
          && (forall c | c in q.connectors :: c in snapshot.connectors <==>
              Find(s, ConnectorKind, q.projectId, c).Some?)
          && (forall w | w in q.workspaces ::
                && (if w in snapshot.workspaces then Some(snapshot.workspaces[w]) else None)
                   == Find(s, WorkspaceKind, q.projectId, w)
                && (w in snapshot.attached <==> Attached(s.resources, q.projectId, w))))
  }

  // ---------- The decision ----------

  /** The first mount that stands in the way, if any. */
  function Obstacle(snapshot: Snapshot, mounts: seq<Mount>, i: nat): Option<Decision>
    requires i <= |mounts|
    decreases |mounts| - i
  {
    if i == |mounts| then None
    else
      var w := mounts[i].workspaceId;
      if w !in snapshot.workspaces || !snapshot.workspaces[w].Workspace? then Some(NotFound)
      else if snapshot.workspaces[w].standing != WorkspaceReady || snapshot.workspaces[w].backendName == "" then
        Some(NotReady(w))
      else if w in snapshot.attached then Some(AlreadyAttached(w))
      else Obstacle(snapshot, mounts, i + 1)
  }

  function NameOf(snapshot: Snapshot, w: string): string {
    if w in snapshot.workspaces && snapshot.workspaces[w].Workspace? then snapshot.workspaces[w].backendName else ""
  }

  function BackendMounts(snapshot: Snapshot, mounts: seq<Mount>): seq<BackendMount> {
    seq(|mounts|, i requires 0 <= i < |mounts| => BackendMount(NameOf(snapshot, mounts[i].workspaceId), mounts[i].path))
  }

  /** Replay first, then quota, capacity, checkpoint, environment, connectors and workspaces. */
  function Decide(snapshot: Snapshot, digest: string, input: Input, limits: Limits): Decision {
    if snapshot.lookup.Claimed? then
      if snapshot.lookup.digest != "" && snapshot.lookup.digest != digest then DifferentRequest
      else Replay(snapshot.lookup.operation)
    else if snapshot.activeForProject >= limits.perProject then Quota
    else if snapshot.activeTotal >= limits.total then Capacity
    else if input.checkpointId != "" && (snapshot.checkpoint.None? || !snapshot.checkpoint.value.Checkpoint?) then
      NotFound
    else if input.checkpointId != ""
            && (!snapshot.checkpoint.value.filesystem || snapshot.checkpoint.value.backendRef == "") then
      Denied
    else
      var checkpoint := if input.checkpointId != "" then snapshot.checkpoint else None;
      var revision := if checkpoint.Some? then checkpoint.value.environmentRevision else input.environmentRevision;
      if snapshot.environment.None? || snapshot.environment.value.id != revision then NotFound
      else if exists c | c in input.connectors :: c !in snapshot.connectors then NotFound
      else
        match Obstacle(snapshot, input.mounts, 0)
        case Some(decision) => decision
        case None => Admit(snapshot.environment.value, checkpoint, BackendMounts(snapshot, input.mounts))
  }

  /** Two truthful snapshots, whatever else they hold, lead to one decision. */
  lemma DecisionDetermined(a: Snapshot, b: Snapshot, s: State, projectId: string, key: string, digest: string,
                           input: Input, limits: Limits)
    requires Describes(a, s, QueryFor(projectId, key, input)) && Describes(b, s, QueryFor(projectId, key, input))
    ensures Decide(a, digest, input, limits) == Decide(b, digest, input, limits)
  {
    hide Active, ActiveIn, Attached, CheckpointFor, EnvironmentFor, LookupIn, Find;
    if a.lookup == Unclaimed {
      var q := QueryFor(projectId, key, input);
      forall i | 0 <= i < |input.mounts| ensures input.mounts[i].workspaceId in q.workspaces {
        assert q.workspaces[i] == input.mounts[i].workspaceId;
      }
      ObstacleDetermined(a, b, input.mounts, 0);
      assert BackendMounts(a, input.mounts) == BackendMounts(b, input.mounts);
    }
  }

  lemma {:induction false} ObstacleDetermined(a: Snapshot, b: Snapshot, mounts: seq<Mount>, i: nat)
    requires i <= |mounts|
    requires forall j | 0 <= j < |mounts| ::
               var w := mounts[j].workspaceId;
               (w in a.workspaces <==> w in b.workspaces) && (w in a.workspaces ==> a.workspaces[w] == b.workspaces[w])
               && (w in a.attached <==> w in b.attached)
    ensures Obstacle(a, mounts, i) == Obstacle(b, mounts, i)
    decreases |mounts| - i
  {
    if i < |mounts| {
      ObstacleDetermined(a, b, mounts, i + 1);
    }
  }

  // ---------- What the decision means ----------

  /** A workspace that a new sandbox may mount: ready, known to the backend, and held by no one. */
  ghost predicate Mountable(s: State, projectId: string, workspaceId: string) {
    var k := RowKey(WorkspaceKind, projectId, workspaceId);
    && k in s.resources && s.resources[k].Workspace?
    && s.resources[k].standing == WorkspaceReady && s.resources[k].backendName != ""
    && !Attached(s.resources, projectId, workspaceId)
  }

  /** How an obstacle is reported: missing, else not ready, else attached. */
  ghost predicate Reports(d: Decision, s: State, projectId: string, workspaceId: string) {
    var k := RowKey(WorkspaceKind, projectId, workspaceId);
    if k !in s.resources || !s.resources[k].Workspace? then d == NotFound
    else if s.resources[k].standing != WorkspaceReady || s.resources[k].backendName == "" then
      d == NotReady(workspaceId)
    else d == AlreadyAttached(workspaceId)
  }

  ghost predicate FirstObstacle(s: State, projectId: string, mounts: seq<Mount>, i: nat, j: nat) {
    && i <= j < |mounts| && !Mountable(s, projectId, mounts[j].workspaceId)
    && forall n | i <= n < j :: Mountable(s, projectId, mounts[n].workspaceId)
  }

  ghost predicate MountsDescribed(snapshot: Snapshot, s: State, projectId: string, mounts: seq<Mount>) {
    forall i | 0 <= i < |mounts| ::
      var w := mounts[i].workspaceId;
      && (if w in snapshot.workspaces then Some(snapshot.workspaces[w]) else None)
         == Find(s, WorkspaceKind, projectId, w)
      && (w in snapshot.attached <==> Attached(s.resources, projectId, w))
  }

  lemma {:induction false} ObstacleExactly(snapshot: Snapshot, s: State, projectId: string, mounts: seq<Mount>, i: nat)
    requires i <= |mounts| && MountsDescribed(snapshot, s, projectId, mounts)
    ensures match Obstacle(snapshot, mounts, i)
            case None => forall j | i <= j < |mounts| :: Mountable(s, projectId, mounts[j].workspaceId)
            case Some(d) =>
              exists j: nat :: FirstObstacle(s, projectId, mounts, i, j)
                  && Reports(d, s, projectId, mounts[j].workspaceId)
    ensures Obstacle(snapshot, mounts, i).Some? ==>
              exists j | i <= j < |mounts| :: !Mountable(s, projectId, mounts[j].workspaceId)
    decreases |mounts| - i
  {
    hide Attached;
    if i < |mounts| {
      if Mountable(s, projectId, mounts[i].workspaceId) {
        ObstacleExactly(snapshot, s, projectId, mounts, i + 1);
        if d :| Obstacle(snapshot, mounts, i) == Some(d) {
          var j: nat :| FirstObstacle(s, projectId, mounts, i + 1, j)
              && Reports(d, s, projectId, mounts[j].workspaceId);
          assert FirstObstacle(s, projectId, mounts, i, j);
        }
      } else {
        assert FirstObstacle(s, projectId, mounts, i, i);
      }
    }
  }

  ghost predicate Claimless(s: State, projectId: string, key: string) {
    var c := ClaimKey(projectId, "create_sandbox", key);
    c !in s.claims || RowKey(OperationKind, projectId, s.claims[c].operationId) !in s.resources
  }

  ghost predicate CheckpointFound(s: State, projectId: string, input: Input) {
    input.checkpointId == "" || RowKey(CheckpointKind, projectId, input.checkpointId) in s.resources
  }

  /** A checkpoint that can start a sandbox holds a filesystem and has a backend reference. */
  ghost predicate CheckpointUsable(s: State, projectId: string, input: Input)
    requires CheckpointFound(s, projectId, input)
  {
    input.checkpointId == "" ||
    var r := s.resources[RowKey(CheckpointKind, projectId, input.checkpointId)];
    r.Checkpoint? && r.filesystem && r.backendRef != ""
  }

  /** The checkpoint's environment, if there is one, and otherwise the one asked for. */
  ghost function ResolvedRevision(s: State, projectId: string, input: Input): string {
    var k := RowKey(CheckpointKind, projectId, input.checkpointId);
    if input.checkpointId != "" && k in s.resources && s.resources[k].Checkpoint? then
      s.resources[k].environmentRevision
    else input.environmentRevision
  }

  ghost predicate EnvironmentFound(s: State, projectId: string, input: Input) {
    RowKey(EnvironmentKind, projectId, ResolvedRevision(s, projectId, input)) in s.resources
  }

  ghost predicate ConnectorsFound(s: State, projectId: string, input: Input) {
    forall c | c in input.connectors :: RowKey(ConnectorKind, projectId, c) in s.resources
  }

  /** Everything a create needs, said of the tables alone. */
  ghost predicate Admissible(s: State, projectId: string, key: string, input: Input, limits: Limits) {
    && Claimless(s, projectId, key)
    && |ActiveIn(s.resources, projectId)| < limits.perProject && |Active(s.resources)| < limits.total
    && CheckpointFound(s, projectId, input) && CheckpointUsable(s, projectId, input)
    && EnvironmentFound(s, projectId, input) && ConnectorsFound(s, projectId, input)
    && (forall i | 0 <= i < |input.mounts| :: Mountable(s, projectId, input.mounts[i].workspaceId))
  }

  /** The refusal names the first of those needs that is not met. */
  ghost predicate Refuses(d: Decision, s: State, projectId: string, key: string, input: Input, limits: Limits) {
    if !Claimless(s, projectId, key) then d.Replay? || d == DifferentRequest
    else if |ActiveIn(s.resources, projectId)| >= limits.perProject then d == Quota
    else if |Active(s.resources)| >= limits.total then d == Capacity
    else if !CheckpointFound(s, projectId, input) then d == NotFound
    else if !CheckpointUsable(s, projectId, input) then d == Denied
    else if !EnvironmentFound(s, projectId, input) || !ConnectorsFound(s, projectId, input) then d == NotFound
    else exists j: nat ::
      FirstObstacle(s, projectId, input.mounts, 0, j) && Reports(d, s, projectId, input.mounts[j].workspaceId)
  }

  /** What an admission hands on: the resolved environment, the checkpoint, and each workspace's backend name at its
      path, in order. */
  ghost predicate Hands(d: Decision, s: State, projectId: string, input: Input) {
    && d.Admit? && EnvironmentFound(s, projectId, input)
    && d.environment == s.resources[RowKey(EnvironmentKind, projectId, ResolvedRevision(s, projectId, input))]
    && d.checkpoint == (if input.checkpointId == "" then None
                        else Find(s, CheckpointKind, projectId, input.checkpointId))
    && |d.mounts| == |input.mounts|
    && (forall i | 0 <= i < |d.mounts| ::
          var k := RowKey(WorkspaceKind, projectId, input.mounts[i].workspaceId);
          k in s.resources && s.resources[k].Workspace?
          && d.mounts[i] == BackendMount(s.resources[k].backendName, input.mounts[i].path))
  }

  lemma RowKindIs(s: State, k: RowKey)
    requires ValidState(s) && k in s.resources
    ensures KindOf(s.resources[k]) == k.kind && s.resources[k].id == k.id && k.id != ""
  {
    hide ValidClaims, ValidEvents, SafeName;
    assert ValidRow(k, s.resources[k]);
  }

  lemma CheckpointIs(s: State, projectId: string, input: Input, q: Query)
    requires ValidState(s) && q.projectId == projectId && q.checkpointId == input.checkpointId
    requires q.environmentRevision == input.environmentRevision
    ensures CheckpointFor(s, q) == (if input.checkpointId == "" then None
                                    else Find(s, CheckpointKind, projectId, input.checkpointId))
    ensures CheckpointFor(s, q).Some? ==> CheckpointFor(s, q).value.Checkpoint?
    ensures RevisionFor(q, CheckpointFor(s, q)) == ResolvedRevision(s, projectId, input)
    ensures EnvironmentFor(s, q).Some? <==> EnvironmentFound(s, projectId, input)
    ensures EnvironmentFor(s, q).Some? ==>
              && EnvironmentFor(s, q) == Find(s, EnvironmentKind, projectId, ResolvedRevision(s, projectId, input))
              && EnvironmentFor(s, q).value.id == ResolvedRevision(s, projectId, input)
  {
    hide ValidState;
    var c := RowKey(CheckpointKind, projectId, input.checkpointId);
    if c in s.resources {
      RowKindIs(s, c);
    }
    var e := RowKey(EnvironmentKind, projectId, ResolvedRevision(s, projectId, input));
    if e in s.resources {
      RowKindIs(s, e);
    }
  }

  lemma QueryMounts(snapshot: Snapshot, s: State, projectId: string, key: string, input: Input)
    requires Describes(snapshot, s, QueryFor(projectId, key, input)) && snapshot.lookup == Unclaimed
    ensures MountsDescribed(snapshot, s, projectId, input.mounts)
  {
    hide Active, ActiveIn, Attached, CheckpointFor, EnvironmentFor, LookupIn, Find;
    var q := QueryFor(projectId, key, input);
    forall i | 0 <= i < |input.mounts| ensures input.mounts[i].workspaceId in q.workspaces {
      assert q.workspaces[i] == input.mounts[i].workspaceId;
    }
  }

  lemma LookupIs(s: State, projectId: string, key: string)
    ensures LookupIn(s, ClaimKey(projectId, CREATE_SANDBOX, key)) == Unclaimed <==> Claimless(s, projectId, key)
  {
  }

  /** Given any truthful snapshot, a create is admitted exactly when the tables meet its every need; an admission
      hands on what the tables say, and a refusal names the first need not met. */
  lemma DecisionExactly(snapshot: Snapshot, s: State, projectId: string, key: string, digest: string, input: Input,
                        limits: Limits)
    requires ValidState(s) && Describes(snapshot, s, QueryFor(projectId, key, input))
    ensures var d := Decide(snapshot, digest, input, limits);
            && (d.Admit? <==> Admissible(s, projectId, key, input, limits))
            && (if d.Admit? then Hands(d, s, projectId, input) else Refuses(d, s, projectId, key, input, limits))
  {
    hide ValidState, Active, ActiveIn, CheckpointFor, EnvironmentFor, LookupIn, RevisionFor, Obstacle, Mountable,
         FirstObstacle, Attached;
    var q := QueryFor(projectId, key, input);
    LookupIs(s, projectId, key);
    CheckpointIs(s, projectId, input, q);
    if snapshot.lookup == Unclaimed {
      QueryMounts(snapshot, s, projectId, key, input);
      ObstacleExactly(snapshot, s, projectId, input.mounts, 0);
      MountableNamed(snapshot, s, projectId, input.mounts);
      assert ConnectorsFound(s, projectId, input) <==>
               !exists c | c in input.connectors :: c !in snapshot.connectors by {
        assert forall c | c in input.connectors ::
            c in snapshot.connectors <==> RowKey(ConnectorKind, projectId, c) in s.resources;
      }
      assert Obstacle(snapshot, input.mounts, 0).None? <==>
             forall i | 0 <= i < |input.mounts| :: Mountable(s, projectId, input.mounts[i].workspaceId);
    }
  }

  lemma MountableNamed(snapshot: Snapshot, s: State, projectId: string, mounts: seq<Mount>)
    requires MountsDescribed(snapshot, s, projectId, mounts)
    ensures |BackendMounts(snapshot, mounts)| == |mounts|
    ensures forall i | 0 <= i < |mounts| && Mountable(s, projectId, mounts[i].workspaceId) ::
              var k := RowKey(WorkspaceKind, projectId, mounts[i].workspaceId);
              && k in s.resources && s.resources[k].Workspace?
              && BackendMounts(snapshot, mounts)[i] == BackendMount(s.resources[k].backendName, mounts[i].path)
  {
    hide Attached;
  }

  /** The decision is right about every state, project and key that the snapshot describes. */
  ghost predicate Right(d: Decision, snapshot: Snapshot, input: Input, limits: Limits) {
    forall s, projectId, key | ValidState(s) && Describes(snapshot, s, QueryFor(projectId, key, input)) ::
      && (d.Admit? <==> Admissible(s, projectId, key, input, limits))
      && (if d.Admit? then Hands(d, s, projectId, input) else Refuses(d, s, projectId, key, input, limits))
  }

  lemma DecisionIsRight(snapshot: Snapshot, digest: string, input: Input, limits: Limits)
    ensures Right(Decide(snapshot, digest, input, limits), snapshot, input, limits)
  {
    hide ValidState, Describes, Admissible, Hands, Refuses, Decide;
    forall s, projectId, key | ValidState(s) && Describes(snapshot, s, QueryFor(projectId, key, input))
      ensures var d := Decide(snapshot, digest, input, limits);
              && (d.Admit? <==> Admissible(s, projectId, key, input, limits))
              && (if d.Admit? then Hands(d, s, projectId, input) else Refuses(d, s, projectId, key, input, limits))
    {
      DecisionExactly(snapshot, s, projectId, key, digest, input, limits);
    }
  }

  /** The decision as the service computes it. */
  method DecideAdmission(snapshot: Snapshot, digest: string, input: Input, limits: Limits) returns (d: Decision)
    ensures d == Decide(snapshot, digest, input, limits) && Right(d, snapshot, input, limits)
  {
    hide Right;
    DecisionIsRight(snapshot, digest, input, limits);
    if snapshot.lookup.Claimed? {
      if snapshot.lookup.digest != "" && snapshot.lookup.digest != digest {
        return DifferentRequest;
      }
      return Replay(snapshot.lookup.operation);
    }
    if snapshot.activeForProject >= limits.perProject {
      return Quota;
    }
    if snapshot.activeTotal >= limits.total {
      return Capacity;
    }
    var revision, checkpoint := input.environmentRevision, None;
    if input.checkpointId != "" {
      if snapshot.checkpoint.None? || !snapshot.checkpoint.value.Checkpoint? {
        return NotFound;
      }
      checkpoint := snapshot.checkpoint;
      if !checkpoint.value.filesystem || checkpoint.value.backendRef == "" {
        return Denied;
      }
      revision := checkpoint.value.environmentRevision;
    }
    if snapshot.environment.None? || snapshot.environment.value.id != revision {
      return NotFound;
    }
    for i := 0 to |input.connectors|
      invariant forall j | 0 <= j < i :: input.connectors[j] in snapshot.connectors
    {
      if input.connectors[i] !in snapshot.connectors {
        return NotFound;
      }
    }
    var mounts: seq<BackendMount> := [];
    for i := 0 to |input.mounts|
      invariant Obstacle(snapshot, input.mounts, 0) == Obstacle(snapshot, input.mounts, i)
      invariant |mounts| == i && forall j | 0 <= j < i :: mounts[j] == BackendMounts(snapshot, input.mounts)[j]
    {
      var w := input.mounts[i].workspaceId;
      if w !in snapshot.workspaces || !snapshot.workspaces[w].Workspace? {
        return NotFound;
      }
      if snapshot.workspaces[w].standing != WorkspaceReady || snapshot.workspaces[w].backendName == "" {
        return NotReady(w);
      }
      if w in snapshot.attached {
        return AlreadyAttached(w);
      }
      mounts := mounts + [BackendMount(snapshot.workspaces[w].backendName, input.mounts[i].path)];
    }
    assert mounts == BackendMounts(snapshot, input.mounts);
    return Admit(snapshot.environment.value, checkpoint, mounts);
  }

  // ---------- The two reads ----------

  lemma CountersDescribe(capacity: map<Counter, int>, mounts: map<MountKey, RowKey>, rows: map<RowKey, Resource>,
                         projectId: string)
    requires IndexesMatch(capacity, mounts, rows) && ValidRows(rows) && SafeName(projectId)
    ensures Read(capacity, Counter(SandboxCapacity, TOTAL)) == |Active(rows)|
    ensures Read(capacity, Counter(SandboxCapacity, projectId)) == |ActiveIn(rows, projectId)|
    ensures forall w :: MountKey(projectId, w) in mounts <==> Attached(rows, projectId, w)
  {
    hide SingleMounts, ValidId;
    forall k | k in rows ensures rows[k].projectId != TOTAL {
      ProjectIsNamed(k, rows[k]);
    }
    assert Charged(rows, Counter(SandboxCapacity, TOTAL)) == Active(rows);
    assert Charged(rows, Counter(SandboxCapacity, projectId)) == ActiveIn(rows, projectId);
    forall w ensures MountKey(projectId, w) in mounts <==> Attached(rows, projectId, w) {
      var m := MountKey(projectId, w);
      if m in mounts {
        assert Attaches(rows[mounts[m]], m);
      }
    }
  }

  lemma LookupSucceeds(s: State, c: ClaimKey)
    requires ValidState(s) && c in s.claims
    ensures var k := OperationKey(c.projectId, s.claims[c].operationId);
            k in s.resources && s.resources[k].Operation? && s.resources[k].kind == c.kind
            && s.resources[k].idempotencyKey == c.key
  {
    hide ValidRows, ValidEvents, ValidDigest;
    assert Backed(s.resources, c, s.claims[c]);
  }

  /** One primary-key lookup per connector and workspace, one mount-index lookup per workspace. */
  method ReadDependencies(s: State, q: Query, mounts: map<MountKey, RowKey>)
    returns (connectors: set<string>, workspaces: map<string, Resource>, attached: set<string>)
    ensures forall c | c in q.connectors :: c in connectors <==> Find(s, ConnectorKind, q.projectId, c).Some?
    ensures forall w | w in q.workspaces ::
              && (if w in workspaces then Some(workspaces[w]) else None) == Find(s, WorkspaceKind, q.projectId, w)
              && (w in attached <==> MountKey(q.projectId, w) in mounts)
  {
    hide Find;
    connectors, workspaces, attached := {}, map[], {};
    for i := 0 to |q.connectors|
      invariant forall c :: c in connectors <==> c in q.connectors[..i] && Find(s, ConnectorKind, q.projectId, c).Some?
    {
      if Find(s, ConnectorKind, q.projectId, q.connectors[i]).Some? {
        connectors := connectors + {q.connectors[i]};
      }
    }
    for i := 0 to |q.workspaces|
      invariant forall w | w in q.workspaces[..i] ::
                  (if w in workspaces then Some(workspaces[w]) else None) == Find(s, WorkspaceKind, q.projectId, w)
      invariant forall w | w in workspaces :: w in q.workspaces[..i]
      invariant forall w :: w in attached <==> w in q.workspaces[..i] && MountKey(q.projectId, w) in mounts
    {
      var w := q.workspaces[i];
      var found := Find(s, WorkspaceKind, q.projectId, w);
      if found.Some? {
        workspaces := workspaces[w := found.value];
      }
      if MountKey(q.projectId, w) in mounts {
        attached := attached + {w};
      }
    }
  }

  /** Reads counters, primary keys and the mount index; a query it refuses is malformed. */
  method ReadIndexed(store: SqlStore, q: Query) returns (r: Option<Snapshot>)
    requires Consistent(store.Contents())
    ensures r.Some? <==> ValidQuery(q)
    ensures r.Some? ==> Describes(r.value, store.state, q)
  {
    hide ValidState, IndexesMatch, SafeName, ValidId, Active, ActiveIn, Attached;
    if !ValidQuery(q) {
      return None;
    }
    var s := store.state;
    if q.claim in s.claims {
      LookupSucceeds(s, q.claim);
      return Some(Snapshot(LookupIn(s, q.claim), 0, 0, None, None, {}, map[], {}));
    }
    ValidStateRows(s);
    CountersDescribe(store.index.capacity, store.index.mounts, s.resources, q.projectId);
    var connectors, workspaces, attached := ReadDependencies(s, q, store.index.mounts);
    return Some(Snapshot(Unclaimed, Read(store.index.capacity, Counter(SandboxCapacity, TOTAL)),
                         Read(store.index.capacity, Counter(SandboxCapacity, q.projectId)),
                         CheckpointFor(s, q), EnvironmentFor(s, q), connectors, workspaces, attached));
  }

  /** The scan's results once the rows in `done` have been visited. */
  ghost predicate Scanned(rows: map<RowKey, Resource>, projectId: string, done: set<RowKey>, total: int, project: int,
                          attached: set<string>) {
    && total == |Active(rows) * done| && project == |ActiveIn(rows, projectId) * done|
    && (forall w :: w in attached <==> AttachedBy(rows, done, MountKey(projectId, w)))
  }

  ghost predicate AttachedBy(rows: map<RowKey, Resource>, done: set<RowKey>, m: MountKey) {
    exists k :: k in done && k in rows && Attaches(rows[k], m)
  }

  lemma AttachedByNext(rows: map<RowKey, Resource>, done: set<RowKey>, k: RowKey, m: MountKey)
    requires k in rows
    ensures AttachedBy(rows, done + {k}, m) <==> AttachedBy(rows, done, m) || Attaches(rows[k], m)
  {
    hide Attaches;
    if AttachedBy(rows, done, m) {
      var q :| q in done && q in rows && Attaches(rows[q], m);
      assert q in done + {k};
    }
    if Attaches(rows[k], m) {
      assert k in done + {k};
    }
  }

  lemma CountNext(s: set<RowKey>, done: set<RowKey>, k: RowKey)
    requires k !in done
    ensures |s * (done + {k})| == |s * done| + (if k in s then 1 else 0)
  {
    if k in s {
      assert s * (done + {k}) == s * done + {k};
    } else {
      assert s * (done + {k}) == s * done;
    }
  }

  lemma ScannedNext(rows: map<RowKey, Resource>, projectId: string, done: set<RowKey>, k: RowKey, total: int,
                    project: int, attached: set<string>)
    requires Scanned(rows, projectId, done, total, project, attached) && k in rows && k !in done
    ensures var mine := CountsSandbox(rows[k]) && rows[k].projectId == projectId;
            Scanned(rows, projectId, done + {k}, if CountsSandbox(rows[k]) then total + 1 else total,
                    if mine then project + 1 else project,
                    if mine then attached + (set w | w in rows[k].mounts) else attached)
  {
    hide AttachedBy;
    CountNext(Active(rows), done, k);
    CountNext(ActiveIn(rows, projectId), done, k);
    forall w ensures AttachedBy(rows, done + {k}, MountKey(projectId, w)) <==>
                     AttachedBy(rows, done, MountKey(projectId, w)) || Attaches(rows[k], MountKey(projectId, w)) {
      AttachedByNext(rows, done, k, MountKey(projectId, w));
    }
  }

  lemma ScannedAll(rows: map<RowKey, Resource>, projectId: string, total: int, project: int, attached: set<string>)
    requires Scanned(rows, projectId, rows.Keys, total, project, attached)
    ensures total == |Active(rows)| && project == |ActiveIn(rows, projectId)|
    ensures forall w :: w in attached <==> Attached(rows, projectId, w)
  {
    assert Active(rows) * rows.Keys == Active(rows)
           && ActiveIn(rows, projectId) * rows.Keys == ActiveIn(rows, projectId);
    forall w ensures AttachedBy(rows, rows.Keys, MountKey(projectId, w)) <==> Attached(rows, projectId, w) {
      if AttachedBy(rows, rows.Keys, MountKey(projectId, w)) {
        var k :| k in rows && Attaches(rows[k], MountKey(projectId, w));
        assert Occupies(rows[k]);
      }
      if Attached(rows, projectId, w) {
        var k :| k in rows && Occupies(rows[k]) && rows[k].projectId == projectId && w in rows[k].mounts;
        assert Attaches(rows[k], MountKey(projectId, w));
      }
    }
  }

  /** Counts and collects by visiting every sandbox, in any order. */
  method ScanSandboxes(rows: map<RowKey, Resource>, projectId: string)
    returns (total: int, project: int, attached: set<string>)
    ensures total == |Active(rows)| && project == |ActiveIn(rows, projectId)|
    ensures forall w :: w in attached <==> Attached(rows, projectId, w)
  {
    hide Scanned;
    total, project, attached := 0, 0, {};
    var pending := rows.Keys;
    assert rows.Keys - pending == {};
    ScannedNothing(rows, projectId);
    while pending != {}
      invariant pending <= rows.Keys && Scanned(rows, projectId, rows.Keys - pending, total, project, attached)
      decreases pending
    {
      var k :| k in pending;
      ScannedNext(rows, projectId, rows.Keys - pending, k, total, project, attached);
      assert rows.Keys - (pending - {k}) == rows.Keys - pending + {k};
      if CountsSandbox(rows[k]) {
        total := total + 1;
        if rows[k].projectId == projectId {
          project := project + 1;
          attached := attached + set w | w in rows[k].mounts;
        }
      }
      pending := pending - {k};
    }
    assert rows.Keys - pending == rows.Keys;
    ScannedAll(rows, projectId, total, project, attached);
  }

  lemma ScannedNothing(rows: map<RowKey, Resource>, projectId: string)
    ensures Scanned(rows, projectId, {}, 0, 0, {})
  {
    assert Active(rows) * {} == {} && ActiveIn(rows, projectId) * {} == {};
  }

  /** The full scan used when a store has no indexes. */
  method ReadFallback(s: State, q: Query) returns (r: Snapshot)
    requires ValidState(s)
    ensures Describes(r, s, q)
  {
    hide ValidState, SafeName, ValidId, Active, ActiveIn, Attached;
    if q.claim in s.claims {
      LookupSucceeds(s, q.claim);
      return Snapshot(LookupIn(s, q.claim), 0, 0, None, None, {}, map[], {});
    }
    var total, project, attached := ScanSandboxes(s.resources, q.projectId);
    var connectors := set c | c in q.connectors && Find(s, ConnectorKind, q.projectId, c).Some?;
    var workspaces := map w | w in q.workspaces
        && Find(s, WorkspaceKind, q.projectId, w).Some? :: Find(s, WorkspaceKind, q.projectId, w).value;
    return Snapshot(Unclaimed, total, project, CheckpointFor(s, q), EnvironmentFor(s, q), connectors, workspaces,
                    attached);
  }

  /** In every consistent store, and for every well-formed request, both reads decide alike. */
  method AdmitBothWays(store: SqlStore, projectId: string, key: string, digest: string, input: Input, limits: Limits)
    returns (indexed: Decision, scanned: Decision)
    requires Consistent(store.Contents()) && ValidQuery(QueryFor(projectId, key, input))
    ensures indexed == scanned
    ensures indexed.Admit? <==> Admissible(store.state, projectId, key, input, limits)
    ensures exists snapshot ::
            Describes(snapshot, store.state, QueryFor(projectId, key, input))
            && indexed == Decide(snapshot, digest, input, limits)
  {
    hide Describes, ValidState, ValidQuery, Decide, QueryFor, IndexesMatch, Admissible;
    var q := QueryFor(projectId, key, input);
    var fast := ReadIndexed(store, q);
    var slow := ReadFallback(store.state, q);
    DecisionDetermined(fast.value, slow, store.state, projectId, key, digest, input, limits);
    DecisionExactly(fast.value, store.state, projectId, key, digest, input, limits);
    indexed := DecideAdmission(fast.value, digest, input, limits);
    scanned := DecideAdmission(slow, digest, input, limits);
  }

  // ---------- Idempotent creates over any sequence of transactions ----------

  predicate ClaimKept(s: State, s': State, c: ClaimKey) {
    c in s.claims ==> c in s'.claims && s'.claims[c] == s.claims[c]
  }

  /** Only a whole-state transaction could withdraw or change a claim. */
  lemma TransactionKeepsClaim(tx: Transaction, s: State, c: ClaimKey)
    requires !tx.Whole?
    ensures ClaimKept(s, StateAfter(tx, s), c)
  {
    hide ValidState, SingleMounts, Merge, Slice, ScopedChanges, ValidScope, Appended, AdvanceActivity, WritableEvent,
         Counted;
    if tx.Scoped? {
      var after := tx.fn(Slice(tx.scope, s));
      if CommitsRows(tx.scope, s, after) {
        ClaimStays(tx.scope, s, after.value, c);
      }
    }
  }

  lemma {:induction false} HistoryKeepsClaim(txs: seq<Transaction>, history: seq<Database>, i: nat, j: nat, c: ClaimKey)
    requires IsHistory(txs, history) && i <= j < |history|
    requires forall t | i <= t < j && txs[t].Whole? :: ClaimKept(history[t].state, history[t + 1].state, c)
    ensures ClaimKept(history[i].state, history[j].state, c)
    decreases j
  {
    hide StateAfter, Heads.Follows;
    if i < j {
      HistoryKeepsClaim(txs, history, i, j - 1, c);
      assert history[j - 1 + 1].state == StateAfter(txs[j - 1], history[j - 1].state);
      if !txs[j - 1].Whole? {
        TransactionKeepsClaim(txs[j - 1], history[j - 1].state, c);
      } else {
        assert ClaimKept(history[j - 1].state, history[j - 1 + 1].state, c);
      }
    }
  }

  /** How a create with this key and digest must be answered once the claim stands. */
  predicate Answers(d: Decision, claim: Claim, key: string, digest: string) {
    if claim.digest == "" || claim.digest == digest then
      d.Replay? && d.operation.Operation? && d.operation.id == claim.operationId && d.operation.kind == CREATE_SANDBOX
      && d.operation.idempotencyKey == key
    else d == DifferentRequest
  }

  lemma ClaimAnswers(s: State, snapshot: Snapshot, projectId: string, key: string, digest: string, input: Input,
                     limits: Limits)
    requires ValidState(s) && ClaimKey(projectId, CREATE_SANDBOX, key) in s.claims
    requires Describes(snapshot, s, QueryFor(projectId, key, input))
    ensures Answers(Decide(snapshot, digest, input, limits), s.claims[ClaimKey(projectId, CREATE_SANDBOX, key)], key,
                    digest)
  {
    hide ValidEvents, ValidDigest, SafeName, ValidId, Obstacle, BackendMounts;
    var c := ClaimKey(projectId, CREATE_SANDBOX, key);
    LookupSucceeds(s, c);
    var k := OperationKey(projectId, s.claims[c].operationId);
    assert ValidRow(k, s.resources[k]);
  }

  /** Once a create claim is durable, then after any further transactions, whatever the request says and whichever
      read serves it, the same request replays the claimed operation, another one conflicts, and none is admitted
      again; unless a whole-state transaction withdrew the claim. */
  lemma CreateIsAdmittedOnce(txs: seq<Transaction>, history: seq<Database>, i: nat, j: nat, snapshot: Snapshot,
                             projectId: string, key: string, digest: string, input: Input, limits: Limits)
    requires IsHistory(txs, history) && ValidState(history[0].state) && i <= j < |history|
    requires ClaimKey(projectId, CREATE_SANDBOX, key) in history[i].state.claims
    requires forall t | i <= t < j && txs[t].Whole? ::
               ClaimKept(history[t].state, history[t + 1].state, ClaimKey(projectId, CREATE_SANDBOX, key))
    requires Describes(snapshot, history[j].state, QueryFor(projectId, key, input))
    ensures Answers(Decide(snapshot, digest, input, limits),
                    history[i].state.claims[ClaimKey(projectId, CREATE_SANDBOX, key)], key, digest)
  {
    hide IsHistory, ValidState, Describes, QueryFor, Decide, Answers;
    HistoryValid(txs, history, j);
    HistoryKeepsClaim(txs, history, i, j, ClaimKey(projectId, CREATE_SANDBOX, key));
    ClaimAnswers(history[j].state, snapshot, projectId, key, digest, input, limits);
  }

  /** Any two answers to creates with one key, however far apart, name the same operation or conflict. */
  lemma CreateAnswersAgree(txs: seq<Transaction>, history: seq<Database>, i: nat, j: nat, j': nat, a: Snapshot,
                           b: Snapshot,
                           projectId: string, key: string, digest: string, digest': string, input: Input, input': Input,
                           limits: Limits, limits': Limits)
    requires IsHistory(txs, history) && ValidState(history[0].state) && i <= j <= j' < |history|
    requires ClaimKey(projectId, CREATE_SANDBOX, key) in history[i].state.claims
    requires forall t | i <= t < j' && txs[t].Whole? ::
               ClaimKept(history[t].state, history[t + 1].state, ClaimKey(projectId, CREATE_SANDBOX, key))
    requires Describes(a, history[j].state, QueryFor(projectId, key, input))
    requires Describes(b, history[j'].state, QueryFor(projectId, key, input'))
    ensures var d, d' := Decide(a, digest, input, limits), Decide(b, digest', input', limits');
            && (d.Replay? && d'.Replay? ==>
                d.operation.Operation? && d'.operation.Operation?
                && d.operation.id == d'.operation.id)
            && (digest == digest' ==> (d.Replay? <==> d'.Replay?))
            && (!d.Replay? ==> d == DifferentRequest) && (!d'.Replay? ==> d' == DifferentRequest)
  {
    hide IsHistory, ValidState, Describes, QueryFor, Decide;
    CreateIsAdmittedOnce(txs, history, i, j, a, projectId, key, digest, input, limits);
    CreateIsAdmittedOnce(txs, history, i, j', b, projectId, key, digest', input', limits');
  }
}
