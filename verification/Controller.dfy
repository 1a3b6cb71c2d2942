/** The lifecycle controller (internal/service/service.go, guest.go, workspace.go) as a machine whose steps
    are its locked sections, the backend's own moves, the passing of time and crashes. Durable rows survive
    a crash; fences, guests, recent activity and running tasks do not. */
module Controller {
  import opened Records

  const NANOS: int := 1_000_000_000

  datatype Key = Key(projectId: string, id: string)

  datatype Lifecycle = Lifecycle(standbyAfter: nat, standbyGrace: nat, autoResume: bool)

  /** A durable sandbox row. `assignment` stands for its node, route and generation; a `lastActiveAt` of 0
      is the zero time. Creation fixes the first four fields. */
  datatype Row = Row(claim: ClaimKey, mounts: seq<string>, lifecycle: Lifecycle, expiresAt: int,
                     state: SandboxState, cleanup: Option<SandboxState>, backendId: string, assignment: string,
                     failure: string,
                     revision: int, lastActiveAt: int)

  datatype WorkspaceRow = WorkspaceRow(state: WorkspaceState, cleanup: bool, backendId: string, updatedAt: int,
                                       failure: string)

  /** A create claim: the operation it stands for, the request's digest and the sandbox it made. */
  datatype CreateClaim = CreateClaim(operationId: string, digest: string, sandbox: Key)

  datatype Limits = Limits(perProject: nat, total: nat, guestsPerProject: nat)

  datatype Change = Pause | Resume | AutoPause | Delete

  /** Work under way outside the lock. All but observers own the fence of their sandbox; `base` is the row
      as it was when the work began. */
  datatype Task =
    | Creating(key: Key, base: Row)
    | Attaching(key: Key, base: Row, next: Row)
    | Changing(key: Key, base: Row, change: Change)
    | Checkpointing(key: Key, base: Row)
    | Cleaning(key: Key, base: Row)
    | Forgetting(key: Key, base: Row)
    | Routing(key: Key, base: Row, next: Row)
    | Observing(key: Key, base: Row, absent: bool)

  datatype GuestOp = GuestOp(key: Key, op: string)

  datatype WorkspaceTask = WorkspaceTask(key: Key, base: WorkspaceRow)

  /** What a create call was answered with: its operation, or a conflict. */
  datatype Answer = Answer(claim: ClaimKey, digest: string, operationId: Option<string>)

  /** `live` is what the backend runs, with the workspaces each sandbox mounts, and `pending` the creates it
      was asked for and may still perform, whether or not anyone waits for them; `creates`, `answers` and `lastGuest`
      record the creates asked for, the answers given and the latest start or end of a guest operation. */
  datatype World = World(clock: int, limits: Limits,
                         rows: map<Key, Row>, claims: map<ClaimKey, CreateClaim>, workspaces: map<Key, WorkspaceRow>,
                         fence: set<Key>, tasks: map<nat, Task>, workspaceFence: set<Key>,
                         workspaceTasks: map<nat, WorkspaceTask>,
                         guests: set<GuestOp>, guestCount: map<string, nat>, recent: map<Key, int>,
                         live: map<Key, seq<string>>, pending: set<Key>, creates: seq<ClaimKey>, answers: seq<Answer>,
                         lastGuest: map<Key, int>)

  // ---------- Rules on one row ----------

  predicate CanTransition(from: SandboxState, to: SandboxState) {
    match from
    case Requested => to in {Preparing, Failed}
    case Preparing => to in {Running, Failed, Unknown}
    case Running => to in {Pausing, Standby, Deleting, Expired, Unknown}
    case Pausing => to in {Standby, Unknown, Failed}
    case Standby => to in {Resuming, Running, Deleting, Expired, Unknown}
    case Resuming => to in {Running, Unknown, Failed}
    case Deleting => to in {Deleted, Expired, Unknown, Failed}
    case Unknown => to in {Running, Standby, Deleting, Deleted, Expired, Failed}
    case _ => false
  }

  function Transitional(change: Change): SandboxState {
    match change
    case Pause => Pausing
    case AutoPause => Pausing
    case Resume => Resuming
    case Delete => Deleting
  }

  function Target(change: Change): SandboxState {
    match change
    case Pause => Standby
    case AutoPause => Standby
    case Resume => Running
    case Delete => Deleted
  }

  predicate FenceFree(s: World, k: Key) {
    k in s.rows && k !in s.fence
  }

  predicate HasGuests(s: World, k: Key) {
    exists g | g in s.guests :: g.key == k
  }

  function Recent(s: World, k: Key): int {
    if k in s.recent then s.recent[k] else 0
  }

  function Max(a: int, b: int): int {
    if a < b then b else a
  }

  function StandbyEligibleAt(lifecycle: Lifecycle, lastActive: int): int {
    lastActive + (lifecycle.standbyAfter + lifecycle.standbyGrace) * NANOS
  }

  function Advanced(r: Row, at: int): Row {
    if r.state != Running && r.state != Standby then r
    else r.(revision := r.revision + 1, lastActiveAt := Max(at, r.lastActiveAt))
  }

  predicate SameVersion(a: Row, b: Row) {
    a.revision == b.revision && a.backendId == b.backendId && a.assignment == b.assignment
  }

  predicate SameObservation(a: Row, b: Row) {
    a.backendId == b.backendId && a.state == b.state && a.assignment == b.assignment && a.failure == b.failure
  }

  predicate Usable(r: Row) {
    r.state == Running || (r.state == Standby && r.lifecycle.autoResume)
  }

  predicate Fenced(t: Task) {
    !t.Observing?
  }

  // ---------- Primitive moves ----------

  function Write(s: World, k: Key, r: Row, saved: bool): World {
    if saved then s.(rows := s.rows[k := r]) else s
  }

  function Fence(s: World, tid: nat, t: Task): World {
    s.(fence := s.fence + {t.key}, tasks := s.tasks[tid := t])
  }

  function Unfence(s: World, tid: nat): World
    requires tid in s.tasks
  {
    s.(fence := s.fence - {s.tasks[tid].key}, tasks := s.tasks - {tid})
  }

  function Active(rows: map<Key, Row>): set<Key> {
    set k | k in rows && !Terminal(rows[k].state)
  }

  function ActiveIn(rows: map<Key, Row>, projectId: string): set<Key> {
    set k | k in rows && !Terminal(rows[k].state) && k.projectId == projectId
  }

  /** A non-terminal sandbox mounts the workspace. */
  predicate Mounted(rows: map<Key, Row>, w: Key) {
    exists k | k in rows :: k.projectId == w.projectId && !Terminal(rows[k].state) && w.id in rows[k].mounts
  }

  predicate Admits(s: World, c: ClaimKey, mounts: seq<string>) {
    && c !in s.claims
    && |ActiveIn(s.rows, c.projectId)| < s.limits.perProject && |Active(s.rows)| < s.limits.total
    && (forall i, j | 0 <= i < j < |mounts| :: mounts[i] != mounts[j])
    && (forall i | 0 <= i < |mounts| ::
          var w := Key(c.projectId, mounts[i]);
          w in s.workspaces && s.workspaces[w].state == WorkspaceReady && !Mounted(s.rows, w))
  }

  // ---------- Steps ----------

  datatype CreateResult = CapacityRefused | Unconfirmed | Created(backendId: string, state: SandboxState)

  /** What an unlocked phase brings back for the row. */
  datatype Outcome = Outcome(ok: bool, backendId: string, assignment: string, failure: string)

  datatype WorkspaceOutcome = Confirmed(backendId: string) | Absent | Unclear(failure: string)

  datatype CreationStep =
    | Create(tid: nat, claim: ClaimKey, operationId: string, digest: string, id: string, mounts: seq<string>,
             lifecycle: Lifecycle, expiresAt: int, saved: bool)
    | Retry(claim: ClaimKey, digest: string)
    | BackendCreates(key: Key)
    | BackendDeclines(key: Key)
    | BackendLoses(key: Key)
    | CreateReturns(tid: nat, result: CreateResult, saved: bool)
    | AttachReturns(tid: nat, outcome: Outcome, saved: bool)

  datatype ChangeStep =
    | Begin(tid: nat, key: Key, change: Change, saved: bool)
    | ChangeReturns(tid: nat, outcome: Outcome, saved: bool)
    | BeginCheckpoint(tid: nat, key: Key)
    | CheckpointReturns(tid: nat)
    | BeginCleaning(tid: nat, key: Key)
    | CleaningReturns(tid: nat, outcome: Outcome, saved: bool)

  datatype GuestStep =
    | Acquire(key: Key, op: string, saved: bool)
    | Release(key: Key, op: string, saved: bool)
    | Baseline(key: Key, saved: bool)

  /** What reading a sandbox does inside one locked section; expiry is shared with reconciliation. */
  datatype LookStep =
    | Expire(key: Key, saved: bool)
    | LookCleanup(key: Key, outcome: Outcome, saved: bool)
    | LookMissing(key: Key, saved: bool)
    | LookUnknown(key: Key, failure: string, saved: bool)
    | LookSeen(key: Key, state: SandboxState, saved: bool)

  /** Reconciliation: an observer without a fence, and the fenced repairs it may turn into. */
  datatype ObserveStep =
    | Observe(tid: nat, key: Key)
    | ObserveAbsent(tid: nat)
    | ObserveUnknown(tid: nat, outcome: Outcome, saved: bool)
    | ObserveSeen(tid: nat, outcome: Outcome, state: SandboxState, saved: bool)
    | ObserveDropped(tid: nat)
    | BeginRouting(tid: nat, outcome: Outcome, state: SandboxState)
    | RoutingReturns(tid: nat, outcome: Outcome, saved: bool)
    | BeginForgetting(tid: nat)
    | ForgettingReturns(tid: nat, outcome: Outcome, saved: bool)

  datatype WorkspaceStep =
    | CreateWorkspace(key: Key, verdict: WorkspaceOutcome, saved: bool, settled: bool)
    | DeleteWorkspace(key: Key, verdict: WorkspaceOutcome, saved: bool, settled: bool)
    | BeginWorkspace(tid: nat, key: Key)
    | WorkspaceReturns(tid: nat, verdict: WorkspaceOutcome, saved: bool)

  datatype Step =
    | Tick(elapsed: nat)
    | Crash
    | Creation(creation: CreationStep)
    | Changes(change: ChangeStep)
    | Guest(guest: GuestStep)
    | Look(look: LookStep)
    | Observation(observation: ObserveStep)
    | Space(space: WorkspaceStep)

  /** The backend names only resources whose create has landed. */
  predicate Named(s: World, k: Key, backendId: string) {
    backendId != "" ==> k !in s.pending
  }

  /** The backend confirms that a sandbox's resource is gone. Looked up by a known id, it must not be running;
      looked up by its sandbox, an abandoned create must also have settled. */
  predicate ConfirmedGone(s: World, k: Key, backendId: string) {
    k !in s.live && (backendId == "" ==> k !in s.pending)
  }

  predicate Idle(s: World, k: Key) {
    FenceFree(s, k) && !HasGuests(s, k)
  }

  /** A row no cleanup has been decided for. */
  predicate Open(s: World, k: Key) {
    k in s.rows && !Terminal(s.rows[k].state) && s.rows[k].cleanup == None
  }

  predicate MayBegin(s: World, k: Key, change: Change) {
    && Idle(s, k)
    && match change
       case Pause => s.rows[k].state == Running
       case Resume => s.rows[k].state == Standby
       case Delete => CanTransition(s.rows[k].state, Deleting)
       case AutoPause =>
         var r := s.rows[k];
         var lastActive := Max(r.lastActiveAt, Recent(s, k));
         r.state == Running && r.lifecycle.standbyAfter > 0 && lastActive != 0
         && s.clock >= StandbyEligibleAt(r.lifecycle, lastActive)
  }

  /** When a step can happen. The guards of the code are part of this: where the code would return
      without effect, the step is not enabled. */
  predicate Enabled(s: World, step: Step) {
    match step
    case Tick(_) => true
    case Crash => true
    case Creation(c) => CreationEnabled(s, c)
    case Changes(c) => ChangeEnabled(s, c)
    case Guest(g) => GuestEnabled(s, g)
    case Look(l) => LookEnabled(s, l)
    case Observation(o) => ObserveEnabled(s, o)
    case Space(w) => SpaceEnabled(s, w)
  }

  predicate CreationEnabled(s: World, step: CreationStep) {
    match step
    case Create(tid, c, _, _, id, mounts, _, _, _) =>
      tid !in s.tasks && Key(c.projectId, id) !in s.rows && Admits(s, c, mounts)
    case Retry(c, _) => c in s.claims
    case BackendCreates(k) => k in s.pending && k in s.rows
    case BackendDeclines(k) => k in s.pending
    case BackendLoses(k) => k in s.live
    case CreateReturns(tid, result, _) =>
      && tid in s.tasks && s.tasks[tid].Creating?
      && (result == CapacityRefused ==> s.tasks[tid].key !in s.live && s.tasks[tid].key !in s.pending)
      && (result.Created? ==> s.tasks[tid].key !in s.pending && !Terminal(result.state))
    case AttachReturns(tid, _, _) => tid in s.tasks && s.tasks[tid].Attaching?
  }

  predicate ChangeEnabled(s: World, step: ChangeStep) {
    match step
    case Begin(tid, k, change, _) => tid !in s.tasks && MayBegin(s, k, change)
    case ChangeReturns(tid, outcome, _) =>
      && tid in s.tasks && s.tasks[tid].Changing? && Named(s, s.tasks[tid].key, outcome.backendId)
      && (outcome.ok && s.tasks[tid].change == Delete ==>
          ConfirmedGone(s, s.tasks[tid].key, s.tasks[tid].base.backendId))
    case BeginCheckpoint(tid, k) => tid !in s.tasks && Idle(s, k) && s.rows[k].state == Running
    case CheckpointReturns(tid) => tid in s.tasks && s.tasks[tid].Checkpointing?
    case BeginCleaning(tid, k) => tid !in s.tasks && Idle(s, k) && !Terminal(s.rows[k].state) && s.rows[k].cleanup.Some?
    case CleaningReturns(tid, outcome, _) =>
      && tid in s.tasks && s.tasks[tid].Cleaning? && Named(s, s.tasks[tid].key, outcome.backendId)
      && (outcome.ok ==> ConfirmedGone(s, s.tasks[tid].key, s.tasks[tid].base.backendId))
  }

  predicate GuestEnabled(s: World, step: GuestStep) {
    match step
    case Acquire(k, op, saved) =>
      && FenceFree(s, k) && s.clock < s.rows[k].expiresAt && Usable(s.rows[k]) && s.rows[k].backendId != ""
      && Count(s, k.projectId) < s.limits.guestsPerProject && GuestOp(k, op) !in s.guests
      && (s.rows[k].lifecycle.standbyAfter > 0 ==> saved)
    case Release(k, op, _) => GuestOp(k, op) in s.guests
    case Baseline(k, _) =>
      Idle(s, k) && s.rows[k].state == Running && s.rows[k].lifecycle.standbyAfter > 0
      && Max(s.rows[k].lastActiveAt, Recent(s, k)) == 0
  }

  predicate LookEnabled(s: World, step: LookStep) {
    match step
    case Expire(k, _) =>
      FenceFree(s, k) && Open(s, k) && s.clock >= s.rows[k].expiresAt
      && (s.rows[k].state == Deleting || CanTransition(s.rows[k].state, Deleting))
    case LookCleanup(k, outcome, _) =>
      && FenceFree(s, k) && !Terminal(s.rows[k].state) && s.rows[k].cleanup.Some? && Named(s, k, outcome.backendId)
      && (outcome.ok ==> ConfirmedGone(s, k, s.rows[k].backendId))
    case LookMissing(k, _) => Idle(s, k) && Open(s, k) && s.rows[k].backendId != "" && k !in s.live
    case LookUnknown(k, _, _) => Idle(s, k) && Open(s, k) && s.rows[k].backendId != ""
    case LookSeen(k, state, _) =>
      Idle(s, k) && Open(s, k) && s.rows[k].backendId != "" && state != s.rows[k].state && !Terminal(state)
  }

  /** The observer's row is still the one it looked at. */
  predicate Unmoved(s: World, tid: nat) {
    && tid in s.tasks && s.tasks[tid].Observing?
    && Idle(s, s.tasks[tid].key) && Open(s, s.tasks[tid].key)
    && SameVersion(s.rows[s.tasks[tid].key], s.tasks[tid].base)
  }

  predicate ObserveEnabled(s: World, step: ObserveStep) {
    match step
    case Observe(tid, k) => tid !in s.tasks && Idle(s, k) && Open(s, k) && s.clock < s.rows[k].expiresAt
    case ObserveAbsent(tid) =>
      tid in s.tasks && s.tasks[tid].Observing? && ConfirmedGone(s, s.tasks[tid].key, s.tasks[tid].base.backendId)
    case ObserveUnknown(tid, outcome, _) =>
      && tid in s.tasks && s.tasks[tid].Observing? && Named(s, s.tasks[tid].key, outcome.backendId)
      && Idle(s, s.tasks[tid].key) && Open(s, s.tasks[tid].key)
      && s.rows[s.tasks[tid].key].revision == s.tasks[tid].base.revision
    case ObserveSeen(tid, outcome, state, _) =>
      Unmoved(s, tid) && !Terminal(state) && Named(s, s.tasks[tid].key, outcome.backendId)
    case ObserveDropped(tid) => tid in s.tasks && s.tasks[tid].Observing?
    case BeginRouting(tid, outcome, state) =>
      Unmoved(s, tid) && !Terminal(state) && Named(s, s.tasks[tid].key, outcome.backendId)
    case RoutingReturns(tid, _, _) => tid in s.tasks && s.tasks[tid].Routing?
    case BeginForgetting(tid) => Unmoved(s, tid) && s.tasks[tid].absent
    case ForgettingReturns(tid, outcome, _) => tid in s.tasks && s.tasks[tid].Forgetting?
  }

  predicate SpaceEnabled(s: World, step: WorkspaceStep) {
    match step
    case CreateWorkspace(k, _, _, _) => k !in s.workspaces
    case DeleteWorkspace(k, _, _, _) =>
      k in s.workspaces && k !in s.workspaceFence && !TerminalWorkspace(s.workspaces[k].state) && !Mounted(s.rows, k)
    case BeginWorkspace(tid, k) =>
      tid !in s.workspaceTasks && k in s.workspaces && k !in s.workspaceFence
      && !TerminalWorkspace(s.workspaces[k].state)
    case WorkspaceReturns(tid, _, _) => tid in s.workspaceTasks
  }

  predicate TerminalWorkspace(state: WorkspaceState) {
    state == WorkspaceDeleted || state == WorkspaceFailed
  }

  function Count(s: World, projectId: string): nat {
    if projectId in s.guestCount then s.guestCount[projectId] else 0
  }

  // ---------- What each step does ----------

  function UnknownRow(r: Row, failure: string): Row {
    r.(state := Unknown, failure := failure, revision := r.revision + 1)
  }

  /** A row brought up to what an unlocked phase learned. */
  function Learned(r: Row, outcome: Outcome): Row {
    r.(backendId := outcome.backendId, assignment := outcome.assignment)
  }

  /** An observation that changes nothing is not written. */
  function Observed(s: World, k: Key, r: Row, saved: bool): World
    requires k in s.rows
  {
    if SameObservation(s.rows[k], r) then s else Write(s, k, r.(revision := s.rows[k].revision + 1), saved)
  }

  function Inserted(s: World, step: CreationStep): World
    requires step.Create?
  {
    var k := Key(step.claim.projectId, step.id);
    var r := Row(step.claim, step.mounts, step.lifecycle, step.expiresAt, Preparing, None, "", "", "", 1, s.clock);
    s.(rows := s.rows[k := r], claims := s.claims[step.claim := CreateClaim(step.operationId, step.digest, k)],
       fence := s.fence + {k}, tasks := s.tasks[step.tid := Creating(k, r)], pending := s.pending + {k},
       creates := s.creates + [step.claim], answers := s.answers + [Answer(step.claim, step.digest,
             Some(step.operationId))])
  }

  /** How a claimed create is answered: with its operation, or with a conflict if the request differs. */
  function Replied(claim: CreateClaim, digest: string): Option<string> {
    if claim.digest != "" && claim.digest != digest then None else Some(claim.operationId)
  }

  function CreateSettles(s: World, tid: nat, result: CreateResult, saved: bool): World
    requires tid in s.tasks && s.tasks[tid].Creating?
  {
    var t := s.tasks[tid];
    match result
    case CapacityRefused =>
      Write(Unfence(s, tid), t.key, t.base.(state := Failed, failure := "backend_capacity_unavailable",
                                            revision := t.base.revision + 1), saved)
    case Unconfirmed => Write(Unfence(s, tid), t.key, UnknownRow(t.base, "backend_create_unconfirmed"), saved)
    case Created(backendId, state) =>
      var next := t.base.(backendId := backendId, state := state, failure := "", revision := t.base.revision + 1,
                          lastActiveAt := s.clock);
      s.(tasks := s.tasks[tid := Attaching(t.key, t.base, next)])
  }

  function AttachSettles(s: World, tid: nat, outcome: Outcome, saved: bool): World
    requires tid in s.tasks && s.tasks[tid].Attaching?
  {
    var t := s.tasks[tid];
    var routed := t.next.(assignment := outcome.assignment);
    Write(Unfence(s, tid), t.key, if outcome.ok then routed else UnknownRow(routed, "node_route_attach_unconfirmed"),
          saved)
  }

  function Begun(r: Row, change: Change): Row {
    r.(state := Transitional(change), failure := "", revision := r.revision + 1,
       cleanup := if change == Delete then Some(Deleted) else r.cleanup)
  }

  function Begins(s: World, tid: nat, k: Key, change: Change, saved: bool): World
    requires k in s.rows
  {
    var r := Begun(s.rows[k], change);
    if saved then Fence(Write(s, k, r, true), tid, Changing(k, r, change)) else s
  }

  function Completed(r: Row, change: Change, clock: int): Row {
    r.(state := Target(change), failure := "", revision := r.revision + 1,
       lastActiveAt := if Target(change) == Running then clock else r.lastActiveAt)
  }

  function ChangeSettles(s: World, tid: nat, outcome: Outcome, saved: bool): World
    requires tid in s.tasks && s.tasks[tid].Changing?
  {
    var t := s.tasks[tid];
    var r := Learned(t.base, outcome);
    var s' := Write(Unfence(s, tid), t.key, if outcome.ok then Completed(r, t.change, s.clock)
                    else UnknownRow(r, outcome.failure), saved);
    if outcome.ok && Target(t.change) == Running then s'.(recent := s'.recent[t.key := s.clock]) else s'
  }

  function Recorded(s: World, k: Key, saved: bool): World
    requires k in s.rows
  {
    var r := Advanced(s.rows[k], s.clock);
    if saved then s.(rows := s.rows[k := r], recent := s.recent[k := r.lastActiveAt]) else s
  }

  function Acquires(s: World, k: Key, op: string): World
    requires k in s.rows
  {
    var s1 := if s.rows[k].lifecycle.standbyAfter > 0 then
                var s0 := Recorded(s, k, true); s0.(recent := s0.recent[k := s.clock])
              else s;
    GuestAdded(s1, k, op)
  }

  function GuestAdded(s: World, k: Key, op: string): World {
    s.(guests := s.guests + {GuestOp(k, op)}, guestCount := s.guestCount[k.projectId := Count(s, k.projectId) + 1],
       lastGuest := s.lastGuest[k := s.clock])
  }

  function Releases(s: World, k: Key, op: string, saved: bool): World
    requires k in s.rows
  {
    GuestRemoved(if s.rows[k].lifecycle.standbyAfter > 0 then Recorded(s.(recent := s.recent[k := s.clock]), k, saved)
                 else s, k, op)
  }

  function GuestRemoved(s: World, k: Key, op: string): World {
    s.(guests := s.guests - {GuestOp(k, op)},
       guestCount := if Count(s, k.projectId) <= 1 then s.guestCount - {k.projectId}
                     else s.guestCount[k.projectId := Count(s, k.projectId) - 1],
       lastGuest := s.lastGuest[k := s.clock])
  }

  function Expiring(r: Row): Row {
    r.(state := Deleting, cleanup := Some(Expired), revision := r.revision + 1)
  }

  /** Cleanup confirmed, the row takes its target; otherwise its state is unknown. */
  function CleanedRow(r: Row, outcome: Outcome): Row
    requires r.cleanup.Some?
  {
    if outcome.ok then Learned(r, outcome).(state := r.cleanup.value, failure := "", revision := r.revision + 1)
    else UnknownRow(Learned(r, outcome), outcome.failure)
  }

  function CleaningSettles(s: World, tid: nat, outcome: Outcome, saved: bool): World
    requires tid in s.tasks && s.tasks[tid].Cleaning? && s.tasks[tid].key in s.rows
             && s.rows[s.tasks[tid].key].cleanup.Some?
  {
    var t := s.tasks[tid];
    var s' := Unfence(s, tid);
    if outcome.ok then Write(s', t.key, CleanedRow(s.rows[t.key], outcome), saved)
    else Observed(s', t.key, Learned(s.rows[t.key], outcome).(state := Unknown, failure := outcome.failure), saved)
  }

  function RoutingSettles(s: World, tid: nat, outcome: Outcome, saved: bool): World
    requires tid in s.tasks && s.tasks[tid].Routing? && s.tasks[tid].key in s.rows
  {
    var t := s.tasks[tid];
    var routed := t.next.(assignment := outcome.assignment);
    Observed(Unfence(s, tid), t.key, if outcome.ok then routed
             else routed.(state := Unknown, failure := outcome.failure), saved)
  }

  function ForgettingSettles(s: World, tid: nat, outcome: Outcome, saved: bool): World
    requires tid in s.tasks && s.tasks[tid].Forgetting? && s.tasks[tid].key in s.rows
  {
    var t := s.tasks[tid];
    var routed := s.rows[t.key].(assignment := outcome.assignment);
    if outcome.ok then Write(Unfence(s, tid), t.key, MissingRow(routed), saved)
    else Observed(Unfence(s, tid), t.key, routed.(state := Unknown, failure := outcome.failure), saved)
  }

  /** What the backend said of a workspace. */
  function WorkspaceSettled(w: WorkspaceRow, outcome: WorkspaceOutcome, clock: int): WorkspaceRow {
    if w.cleanup || w.state == WorkspaceDeleting then
      match outcome
      case Unclear(failure) => w.(state := WorkspaceUnknown, updatedAt := clock, failure := failure)
      case _ => w.(state := WorkspaceDeleted, updatedAt := clock, failure := "")
    else
      match outcome
      case Confirmed(backendId) =>
        w.(state := WorkspaceReady, backendId := backendId, updatedAt := clock, failure := "")
      case Absent => w.(state := WorkspaceFailed, updatedAt := clock, failure := "backend_workspace_missing")
      case Unclear(failure) => w.(state := WorkspaceUnknown, updatedAt := clock, failure := failure)
  }

  function PutWorkspace(s: World, k: Key, w: WorkspaceRow, saved: bool): World {
    if saved then s.(workspaces := s.workspaces[k := w]) else s
  }

  function WorkspaceSettles(s: World, tid: nat, outcome: WorkspaceOutcome, saved: bool): World
    requires tid in s.workspaceTasks
  {
    var t := s.workspaceTasks[tid];
    var s' := s.(workspaceFence := s.workspaceFence - {t.key}, workspaceTasks := s.workspaceTasks - {tid});
    if t.key in s.workspaces && s.workspaces[t.key] == t.base && !TerminalWorkspace(t.base.state)
    then PutWorkspace(s', t.key, WorkspaceSettled(t.base, outcome, s.clock), saved) else s'
  }

  function TakeCreation(s: World, step: CreationStep): World
    requires CreationEnabled(s, step)
  {
    match step
    case Create(_, _, _, _, _, _, _, _, saved) => if saved then Inserted(s, step) else s
    case Retry(c, digest) => s.(answers := s.answers + [Answer(c, digest, Replied(s.claims[c], digest))])
    case BackendCreates(k) => s.(live := s.live[k := s.rows[k].mounts], pending := s.pending - {k})
    case BackendDeclines(k) => s.(pending := s.pending - {k})
    case BackendLoses(k) => s.(live := s.live - {k})
    case CreateReturns(tid, result, saved) => CreateSettles(s, tid, result, saved)
    case AttachReturns(tid, outcome, saved) => AttachSettles(s, tid, outcome, saved)
  }

  function TakeChange(s: World, step: ChangeStep): World
    requires ChangeEnabled(s, step) && TasksHaveRows(s)
  {
    match step
    case Begin(tid, k, change, saved) => Begins(s, tid, k, change, saved)
    case ChangeReturns(tid, outcome, saved) => ChangeSettles(s, tid, outcome, saved)
    case BeginCheckpoint(tid, k) => Fence(s, tid, Checkpointing(k, s.rows[k]))
    case CheckpointReturns(tid) => Unfence(s, tid)
    case BeginCleaning(tid, k) => Fence(s, tid, Cleaning(k, s.rows[k]))
    case CleaningReturns(tid, outcome, saved) => CleaningSettles(s, tid, outcome, saved)
  }

  function TakeGuest(s: World, step: GuestStep): World
    requires GuestEnabled(s, step) && TasksHaveRows(s)
  {
    match step
    case Acquire(k, op, _) => Acquires(s, k, op)
    case Release(k, op, saved) => Releases(s, k, op, saved)
    case Baseline(k, saved) => Recorded(s, k, saved)
  }

  function MissingRow(r: Row): Row {
    r.(state := Failed, failure := "backend_resource_missing", revision := r.revision + 1)
  }

  function TakeLook(s: World, step: LookStep): World
    requires LookEnabled(s, step)
  {
    match step
    case Expire(k, saved) => Write(s, k, Expiring(s.rows[k]), saved)
    case LookCleanup(k, outcome, saved) => Write(s, k, CleanedRow(s.rows[k], outcome), saved)
    case LookMissing(k, saved) => Write(s, k, MissingRow(s.rows[k]), saved)
    case LookUnknown(k, failure, saved) => Write(s, k, UnknownRow(s.rows[k], failure), saved)
    case LookSeen(k, state, saved) =>
      Write(s, k, s.rows[k].(state := state, failure := "", revision := s.rows[k].revision + 1), saved)
  }

  function Dropped(s: World, tid: nat): World {
    s.(tasks := s.tasks - {tid})
  }

  function TakeObserve(s: World, step: ObserveStep): World
    requires ObserveEnabled(s, step) && TasksHaveRows(s)
  {
    match step
    case Observe(tid, k) => s.(tasks := s.tasks[tid := Observing(k, s.rows[k], false)])
    case ObserveAbsent(tid) => s.(tasks := s.tasks[tid := s.tasks[tid].(absent := true)])
    case ObserveUnknown(tid, outcome, saved) =>
      var k := s.tasks[tid].key;
      Observed(Dropped(s, tid), k, Learned(s.rows[k], outcome).(state := Unknown, failure := outcome.failure), saved)
    case ObserveSeen(tid, outcome, state, saved) =>
      var k := s.tasks[tid].key;
      Observed(Dropped(s, tid), k, Learned(s.rows[k], outcome).(state := state, failure := ""), saved)
    case ObserveDropped(tid) => Dropped(s, tid)
    case BeginRouting(tid, outcome, state) =>
      var k := s.tasks[tid].key;
      Fence(Dropped(s, tid), tid, Routing(k, s.rows[k], Learned(s.rows[k], outcome).(state := state, failure := "")))
    case RoutingReturns(tid, outcome, saved) => RoutingSettles(s, tid, outcome, saved)
    case BeginForgetting(tid) => Fence(Dropped(s, tid), tid, Forgetting(s.tasks[tid].key, s.rows[s.tasks[tid].key]))
    case ForgettingReturns(tid, outcome, saved) => ForgettingSettles(s, tid, outcome, saved)
  }

  function TakeSpace(s: World, step: WorkspaceStep): World
    requires SpaceEnabled(s, step)
  {
    match step
    case CreateWorkspace(k, verdict, saved, settled) =>
      var w := WorkspaceRow(WorkspacePreparing, false, "", s.clock, "");
      if !saved then s
      else PutWorkspace(PutWorkspace(s, k, w, true), k,
                        WorkspaceSettled(w, if verdict.Absent? then Unclear("") else verdict, s.clock), settled)
    case DeleteWorkspace(k, verdict, saved, settled) =>
      var w := s.workspaces[k].(state := WorkspaceDeleting, cleanup := true, updatedAt := s.clock, failure := "");
      if !saved then s else PutWorkspace(PutWorkspace(s, k, w, true), k, WorkspaceSettled(w, verdict, s.clock), settled)
    case BeginWorkspace(tid, k) =>
      s.(workspaceFence := s.workspaceFence + {k},
         workspaceTasks := s.workspaceTasks[tid := WorkspaceTask(k, s.workspaces[k])])
    case WorkspaceReturns(tid, verdict, saved) => WorkspaceSettles(s, tid, verdict, saved)
  }

  function Crashed(s: World): World {
    s.(fence := {}, tasks := map[], workspaceFence := {}, workspaceTasks := map[],
       guests := {}, guestCount := map[], recent := map[], lastGuest := map[])
  }

  function Take(s: World, step: Step): World
    requires Enabled(s, step) && TasksHaveRows(s)
  {
    match step
    case Tick(elapsed) => s.(clock := s.clock + elapsed)
    case Crash => Crashed(s)
    case Creation(c) => TakeCreation(s, c)
    case Changes(c) => TakeChange(s, c)
    case Guest(g) => TakeGuest(s, g)
    case Look(l) => TakeLook(s, l)
    case Observation(o) => TakeObserve(s, o)
    case Space(w) => TakeSpace(s, w)
  }

  /** Every task is about an existing row, and a cleaning task about a row to be cleaned up. */
  predicate TasksHaveRows(s: World) {
    && (forall tid | tid in s.tasks ::
        s.tasks[tid].key in s.rows
        && (s.tasks[tid].Cleaning? ==> s.rows[s.tasks[tid].key].cleanup.Some?))
    && (forall g | g in s.guests :: g.key in s.rows)
  }
}
