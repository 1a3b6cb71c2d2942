/** Every step of the controller keeps the invariant; what that means for whole runs. */
module ControllerRuns {
  import opened Records
  import opened Controller
  import opened ControllerSafety

  // ---------- Evolution ----------

  ghost predicate RowsEvolve(rows: map<Key, Row>, rows': map<Key, Row>, clock: int) {
    forall k | k in rows :: k in rows' && (rows'[k] == rows[k] || Legal(rows[k], rows'[k], clock))
  }

  ghost predicate ClaimsEvolve(claims: map<ClaimKey, CreateClaim>, claims': map<ClaimKey, CreateClaim>) {
    forall c | c in claims :: c in claims' && claims'[c] == claims[c]
  }

  /** A decision to delete a workspace is never taken back. */
  ghost predicate SpacesEvolve(spaces: map<Key, WorkspaceRow>, spaces': map<Key, WorkspaceRow>) {
    forall w | w in spaces :: w in spaces' && (spaces[w].cleanup ==> spaces'[w].cleanup)
  }

  /** One step: a row stays or is legally rewritten, claims stay, time does not go back. */
  ghost predicate Evolves(s: World, s': World) {
    && RowsEvolve(s.rows, s'.rows, s'.clock) && ClaimsEvolve(s.claims, s'.claims)
    && SpacesEvolve(s.workspaces, s'.workspaces)
    && s.creates <= s'.creates && s.answers <= s'.answers && s.clock <= s'.clock && s'.limits == s.limits
  }

  /** What every step does. */
  ghost predicate Kept(s: World, s': World) {
    Inv(s') && Evolves(s, s')
  }

  /** Any number of steps. */
  ghost predicate Since(s: World, s': World) {
    && (forall k | k in s.rows :: k in s'.rows && Later(s.rows[k], s'.rows[k]))
    && ClaimsEvolve(s.claims, s'.claims) && SpacesEvolve(s.workspaces, s'.workspaces)
    && s.creates <= s'.creates && s.answers <= s'.answers && s.clock <= s'.clock && s'.limits == s.limits
  }

  lemma SinceThen(a: World, b: World, c: World)
    requires Since(a, b) && Evolves(b, c)
    ensures Since(a, c)
  {
    hide Terminal, RowOk;
  }

  lemma WriteEvolves(rows: map<Key, Row>, k: Key, r: Row, clock: int)
    requires k in rows && Legal(rows[k], r, clock)
    ensures RowsEvolve(rows, rows[k := r], clock)
  {
    hide Legal;
  }

  lemma SpacesStay(spaces: map<Key, WorkspaceRow>)
    ensures SpacesEvolve(spaces, spaces)
  {
  }

  /** Only rows, claims and workspaces matter to evolution. */
  lemma SameEvolves(s: World, s': World)
    requires s'.rows == s.rows && s'.claims == s.claims && SpacesEvolve(s.workspaces, s'.workspaces)
             && s'.creates == s.creates && s.answers <= s'.answers && s.clock <= s'.clock && s'.limits == s.limits
    ensures Evolves(s, s')
  {
    hide Legal;
  }

  // ---------- Helpers ----------

  lemma WrittenKeepsInv(s: World, k: Key, r: Row, saved: bool)
    requires Inv(s) && Writable(s, k, r)
    ensures Kept(s, Write(s, k, r, saved))
  {
    hide Inv, Legal, RowsEvolve, ClaimsEvolve, SpacesEvolve, HasGuests;
    SpacesStay(s.workspaces);
    SameEvolves(s, s);
    if saved {
      WriteKeepsInv(s, k, r);
      WriteEvolves(s.rows, k, r, s.clock);
    }
  }

  lemma ObservedKeepsInv(s: World, k: Key, r: Row, saved: bool)
    requires Inv(s) && k in s.rows && Writable(s, k, r.(revision := s.rows[k].revision + 1))
    ensures Kept(s, Observed(s, k, r, saved))
  {
    hide Inv, Writable, Evolves;
    SpacesStay(s.workspaces);
    SameEvolves(s, s);
    WrittenKeepsInv(s, k, r.(revision := s.rows[k].revision + 1), saved);
  }

  /** What a fence owner can rely on when it comes back. */
  lemma OwnerFacts(s: World, tid: nat)
    requires Inv(s) && tid in s.tasks && Fenced(s.tasks[tid])
    ensures var t := s.tasks[tid];
            && t.key in s.rows && s.rows[t.key] == t.base && RowOk(t.base, s.clock) && !Terminal(t.base.state)
            && !HasGuests(s, t.key)
            && PayloadOk(t, s.live, s.pending, s.clock) && (t.key in s.pending ==> t.base.backendId == "")
  {
    hide MountsOk, WorkspacesOk, QuotaOk, GuestsCounted, GuestsOk, ActivityOk, ClaimsOk, FencesOwned, PayloadOk, Later;
    assert TaskOk(s, s.tasks[tid]);
  }

  lemma RowFacts(s: World, k: Key)
    requires Inv(s) && k in s.rows
    ensures RowOk(s.rows[k], s.clock) && (k in s.pending ==> s.rows[k].backendId == "")
  {
    hide MountsOk, WorkspacesOk, QuotaOk, GuestsCounted, GuestsOk, ActivityOk, ClaimsOk, FencesOwned, TasksOk;
  }

  lemma UnknownLegal(r: Row, outcome: Outcome, clock: int)
    requires RowOk(r, clock) && !Terminal(r.state)
    ensures Legal(r, UnknownRow(Learned(r, outcome), outcome.failure), clock)
            && Legal(r, UnknownRow(r, outcome.failure), clock)
  {
  }

  lemma CleanedLegal(r: Row, outcome: Outcome, clock: int)
    requires RowOk(r, clock) && !Terminal(r.state) && r.cleanup.Some?
    ensures Legal(r, CleanedRow(r, outcome), clock) && CleanedRow(r, outcome).cleanup.Some?
    ensures Terminal(CleanedRow(r, outcome).state) ==> outcome.ok
  {
  }

  lemma ExpiringLegal(r: Row, clock: int)
    requires RowOk(r, clock) && !Terminal(r.state) && r.cleanup == None
    ensures Legal(r, Expiring(r), clock)
  {
  }

  /** An observation of a row without cleanup intent: any state but a cleaned-up one. */
  lemma SeenLegal(r: Row, r': Row, clock: int)
    requires RowOk(r, clock) && !Terminal(r.state) && r.cleanup == None && r'.state != Deleted && r'.state != Expired
             && r'.revision > r.revision
    requires r' == r.(backendId := r'.backendId, assignment := r'.assignment, state := r'.state,
                      failure := r'.failure, revision := r'.revision)
    ensures Legal(r, r', clock)
  {
  }

  lemma RecordEvolves(s: World, k: Key, saved: bool)
    requires k in s.rows && RowOk(s.rows[k], s.clock)
    ensures Evolves(s, Recorded(s, k, saved))
  {
    hide RowsEvolve, ClaimsEvolve, SpacesEvolve;
    SpacesStay(s.workspaces);
    SameEvolves(s, s);
    var r := Advanced(s.rows[k], s.clock);
    assert s.rows[k := s.rows[k]] == s.rows;
    if r != s.rows[k] {
      WriteEvolves(s.rows, k, r, s.clock);
    }
  }

  lemma InsertEvolves(s: World, step: CreationStep)
    requires step.Create? && CreationEnabled(s, step)
    ensures Evolves(s, Inserted(s, step))
  {
    hide Admits, Legal;
    AdmitsFresh(s, step.claim, step.mounts);
  }

  // ---------- Creation ----------

  lemma CreationKeepsInv(s: World, step: CreationStep)
    requires Inv(s) && CreationEnabled(s, step)
    ensures Kept(s, TakeCreation(s, step))
  {
    hide RowsEvolve, ClaimsEvolve, SpacesEvolve, Inv, Admits, PayloadOk, Legal, RowOk;
    SpacesStay(s.workspaces);
    SameEvolves(s, s);
    match step
    case Create(_, _, _, _, _, _, _, _, saved) =>
      if saved {
        InsertKeepsInv(s, step);
        InsertEvolves(s, step);
      }
    case Retry(c, digest) => RetryKeepsInv(s, c, digest);
    case BackendCreates(k) => BackendKeepsInv(s, s.(live := s.live[k := s.rows[k].mounts], pending := s.pending - {k}));
    case BackendDeclines(k) => BackendKeepsInv(s, s.(pending := s.pending - {k}));
    case BackendLoses(k) => BackendKeepsInv(s, s.(live := s.live - {k}));
    case CreateReturns(tid, result, saved) => CreateReturnsKeepsInv(s, tid, result, saved);
    case AttachReturns(tid, outcome, saved) => AttachReturnsKeepsInv(s, tid, outcome, saved);
  }

  lemma RetryKeepsInv(s: World, c: ClaimKey, digest: string)
    requires Inv(s) && c in s.claims
    ensures Inv(s.(answers := s.answers + [Answer(c, digest, Replied(s.claims[c], digest))]))
  {
    hide RowsOk, LiveOk, MountsOk, WorkspacesOk, QuotaOk, GuestsCounted, GuestsOk, ActivityOk, PayloadOk, Later,
         Owned, Exclusive, NoRepeat;
    var s' := s.(answers := s.answers + [Answer(c, digest, Replied(s.claims[c], digest))]);
    SameGuests(s, s');
    SameActivity(s, s');
    SameSpaces(s, s');
    SameLive(s, s');
    assert RowsOk(s') by {
      RowsOnly(s, s');
    }
    forall uid | uid in s'.tasks ensures TaskOk(s', s'.tasks[uid]) {
      assert TaskOk(s, s.tasks[uid]);
    }
  }

  lemma RowsOnly(s: World, s': World)
    requires RowsOk(s) && s'.rows == s.rows && s'.clock == s.clock
    ensures RowsOk(s')
  {
  }

  /** An owner gives its fence back and writes its row. */
  lemma SettleKeepsInv(s: World, tid: nat, r: Row, saved: bool)
    requires Inv(s) && tid in s.tasks && Fenced(s.tasks[tid]) && s.tasks[tid].key in s.rows
    requires Legal(s.rows[s.tasks[tid].key], r, s.clock) && (Terminal(r.state) ==> s.tasks[tid].key !in s.live)
    requires s.tasks[tid].key in s.pending ==> !Terminal(r.state) && r.backendId == ""
    ensures var s' := Write(Unfence(s, tid), s.tasks[tid].key, r, saved); Kept(s, s')
  {
    hide RowsEvolve, ClaimsEvolve, SpacesEvolve, Inv, Legal, RowOk;
    OwnerFacts(s, tid);
    UnfenceKeepsInv(s, tid);
    WrittenKeepsInv(Unfence(s, tid), s.tasks[tid].key, r, saved);
  }

  lemma CreateReturnsKeepsInv(s: World, tid: nat, result: CreateResult, saved: bool)
    requires tid in s.tasks && s.tasks[tid].Creating? && CreationEnabled(s, CreateReturns(tid, result, saved)) && Inv(s)
    ensures Kept(s, CreateSettles(s, tid, result, saved))
  {
    hide Evolves, Inv, Write, Unfence;
    SpacesStay(s.workspaces);
    var t := s.tasks[tid];
    OwnerFacts(s, tid);
    match result
    case CapacityRefused =>
      SettleKeepsInv(s, tid, t.base.(state := Failed, failure := "backend_capacity_unavailable",
                                     revision := t.base.revision + 1), saved);
    case Unconfirmed =>
      SettleKeepsInv(s, tid, UnknownRow(t.base, "backend_create_unconfirmed"), saved);
    case Created(backendId, state) =>
      var next := t.base.(backendId := backendId, state := state, failure := "", revision := t.base.revision + 1,
                          lastActiveAt := s.clock);
      ReplaceKeepsInv(s, tid, Attaching(t.key, t.base, next));
      SameEvolves(s, s.(tasks := s.tasks[tid := Attaching(t.key, t.base, next)]));
  }

  lemma AttachReturnsKeepsInv(s: World, tid: nat, outcome: Outcome, saved: bool)
    requires Inv(s) && tid in s.tasks && s.tasks[tid].Attaching?
    ensures Kept(s, AttachSettles(s, tid, outcome, saved))
  {
    hide Evolves, Inv, Write, Unfence;
    OwnerFacts(s, tid);
    var routed := s.tasks[tid].next.(assignment := outcome.assignment);
    SettleKeepsInv(s, tid, if outcome.ok then routed else UnknownRow(routed, "node_route_attach_unconfirmed"), saved);
  }

  // ---------- Changes and cleanup ----------

  lemma BeginKeepsInv(s: World, tid: nat, k: Key, change: Change, saved: bool)
    requires Inv(s) && ChangeEnabled(s, Begin(tid, k, change, saved))
    ensures Kept(s, Begins(s, tid, k, change, saved))
  {
    hide RowsEvolve, ClaimsEvolve, SpacesEvolve, Inv;
    SpacesStay(s.workspaces);
    SameEvolves(s, s);
    RowFacts(s, k);
    var r := Begun(s.rows[k], change);
    if saved {
      WrittenKeepsInv(s, k, r, true);
      FenceKeepsInv(Write(s, k, r, true), tid, Changing(k, r, change));
    }
  }

  lemma ChangeReturnsKeepsInv(s: World, tid: nat, outcome: Outcome, saved: bool)
    requires Inv(s) && ChangeEnabled(s, ChangeReturns(tid, outcome, saved))
    ensures Kept(s, ChangeSettles(s, tid, outcome, saved))
  {
    hide RowsEvolve, ClaimsEvolve, SpacesEvolve, Inv, Write, Unfence;
    var t := s.tasks[tid];
    OwnerFacts(s, tid);
    var r := Learned(t.base, outcome);
    var r' := if outcome.ok then Completed(r, t.change, s.clock) else UnknownRow(r, outcome.failure);
    SettleKeepsInv(s, tid, r', saved);
    var s' := Write(Unfence(s, tid), t.key, r', saved);
    if outcome.ok && Target(t.change) == Running {
      SettledClock(s, tid, r', saved);
      NowCovers(s', t.key);
      RecentKeepsInv(s', t.key, s.clock);
    }
  }

  lemma SettledClock(s: World, tid: nat, r: Row, saved: bool)
    requires tid in s.tasks && s.tasks[tid].key in s.rows
    ensures var s' := Write(Unfence(s, tid), s.tasks[tid].key, r, saved);
            s'.clock == s.clock
            && s.tasks[tid].key in s'.rows
  {
  }

  lemma NowCovers(s: World, k: Key)
    requires Inv(s)
    ensures Covered(s, k, s.clock)
  {
    hide RowsOk, LiveOk, MountsOk, WorkspacesOk, QuotaOk, GuestsCounted, GuestsOk, ClaimsOk, FencesOwned, TasksOk;
  }

  lemma CleaningReturnsKeepsInv(s: World, tid: nat, outcome: Outcome, saved: bool)
    requires tid in s.tasks && s.tasks[tid].Cleaning? && TasksHaveRows(s)
    requires ChangeEnabled(s, CleaningReturns(tid, outcome, saved)) && Inv(s)
    ensures Kept(s, CleaningSettles(s, tid, outcome, saved))
  {
    hide RowsEvolve, ClaimsEvolve, SpacesEvolve, Inv, TasksHaveRows;
    SpacesStay(s.workspaces);
    SameEvolves(s, s);
    var t := s.tasks[tid];
    OwnerFacts(s, tid);
    UnfenceKeepsInv(s, tid);
    var s' := Unfence(s, tid);
    if outcome.ok {
      WrittenKeepsInv(s', t.key, CleanedRow(t.base, outcome), saved);
    } else {
      ObservedKeepsInv(s', t.key, Learned(t.base, outcome).(state := Unknown, failure := outcome.failure), saved);
    }
  }

  lemma ChangeKeepsInv(s: World, step: ChangeStep)
    requires Inv(s) && ChangeEnabled(s, step) && TasksHaveRows(s)
    ensures Kept(s, TakeChange(s, step))
  {
    hide RowsEvolve, ClaimsEvolve, SpacesEvolve, Inv, TasksHaveRows, Legal, RowOk;
    SpacesStay(s.workspaces);
    SameEvolves(s, s);
    match step
    case Begin(tid, k, change, saved) => BeginKeepsInv(s, tid, k, change, saved);
    case ChangeReturns(tid, outcome, saved) => ChangeReturnsKeepsInv(s, tid, outcome, saved);
    case BeginCheckpoint(tid, k) => FenceKeepsInv(s, tid, Checkpointing(k, s.rows[k]));
    case CheckpointReturns(tid) => UnfenceKeepsInv(s, tid);
    case BeginCleaning(tid, k) => FenceKeepsInv(s, tid, Cleaning(k, s.rows[k]));
    case CleaningReturns(tid, outcome, saved) => CleaningReturnsKeepsInv(s, tid, outcome, saved);
  }

  // ---------- Guests ----------

  lemma RecordedFacts(s: World, k: Key)
    requires k in s.rows
    ensures var s' := Recorded(s, k, true);
            && s'.rows[k].state == s.rows[k].state && s'.rows[k].lifecycle == s.rows[k].lifecycle
            && s' == s.(rows := s.rows[k := s'.rows[k]], recent := s'.recent)
  {
  }

  function Started(s: World, k: Key): World
    requires k in s.rows
  {
    if s.rows[k].lifecycle.standbyAfter > 0 then
      var s0 := Recorded(s, k, true);
      s0.(recent := s0.recent[k := s.clock])
    else s
  }

  lemma StartKeepsInv(s: World, k: Key)
    requires Inv(s) && FenceFree(s, k) && s.rows[k].state in {Running, Standby}
    ensures var s1 := Started(s, k);
            && Inv(s1) && Evolves(s, s1)
            && s1 == s.(rows := s1.rows, recent := s1.recent) && k in s1.rows && s1.rows[k].state == s.rows[k].state
            && (s1.rows[k].lifecycle.standbyAfter > 0 ==> s1.clock <= Max(s1.rows[k].lastActiveAt, Recent(s1, k)))
  {
    hide RowsEvolve, ClaimsEvolve, SpacesEvolve, Inv, Recorded, RowOk;
    SpacesStay(s.workspaces);
    SameEvolves(s, s);
    RowFacts(s, k);
    RecordEvolves(s, k, true);
    RecordKeepsInv(s, k, true);
    RecordedFacts(s, k);
    if s.rows[k].lifecycle.standbyAfter > 0 {
      var s0 := Recorded(s, k, true);
      NowCovers(s0, k);
      RecentKeepsInv(s0, k, s.clock);
    }
  }

  lemma AcquireKeepsInv(s: World, k: Key, op: string, saved: bool)
    requires Inv(s) && GuestEnabled(s, Acquire(k, op, saved))
    ensures Kept(s, Acquires(s, k, op))
  {
    hide RowsEvolve, ClaimsEvolve, SpacesEvolve, Inv, Recorded, HasGuests;
    StartKeepsInv(s, k);
    AddGuestKeepsInv(Started(s, k), k, op);
    assert Acquires(s, k, op) == GuestAdded(Started(s, k), k, op);
  }

  lemma GuestFacts(s: World, k: Key, op: string)
    requires Inv(s) && GuestOp(k, op) in s.guests
    ensures FenceFree(s, k) && (s.rows[k].cleanup.Some? || s.rows[k].state in {Running, Standby})
  {
    hide RowsOk, LiveOk, MountsOk, WorkspacesOk, QuotaOk, GuestsCounted, ActivityOk, ClaimsOk, FencesOwned, TasksOk;
    assert GuestOp(k, op).key == k;
    FencedHasNoGuests(s, k);
  }

  function Ended(s: World, k: Key, saved: bool): World
    requires k in s.rows
  {
    if s.rows[k].lifecycle.standbyAfter > 0 then Recorded(s.(recent := s.recent[k := s.clock]), k, saved) else s
  }

  lemma EndKeepsInv(s: World, k: Key, saved: bool)
    requires Inv(s) && FenceFree(s, k) && (s.rows[k].state in {Running, Standby} || s.rows[k].cleanup.Some?)
    ensures var s1 := Ended(s, k, saved);
            && Inv(s1) && Evolves(s, s1) && s1 == s.(rows := s1.rows, recent := s1.recent) && k in s1.rows
            && (s1.rows[k].lifecycle.standbyAfter > 0 && s1.rows[k].cleanup == None ==>
                s1.clock <= Max(s1.rows[k].lastActiveAt, Recent(s1, k)))
  {
    hide RowsEvolve, ClaimsEvolve, SpacesEvolve, Inv, RowOk;
    SpacesStay(s.workspaces);
    SameEvolves(s, s);
    RowFacts(s, k);
    if s.rows[k].lifecycle.standbyAfter > 0 {
      NowCovers(s, k);
      RecentKeepsInv(s, k, s.clock);
      var s0 := s.(recent := s.recent[k := s.clock]);
      RecordEvolves(s0, k, saved);
      RecordKeepsInv(s0, k, saved);
    }
  }

  lemma ReleaseKeepsInv(s: World, k: Key, op: string, saved: bool)
    requires Inv(s) && GuestEnabled(s, Release(k, op, saved)) && k in s.rows
    ensures Kept(s, Releases(s, k, op, saved))
  {
    hide RowsEvolve, ClaimsEvolve, SpacesEvolve, Inv, Recorded;
    GuestFacts(s, k, op);
    EndKeepsInv(s, k, saved);
    RemoveGuestKeepsInv(Ended(s, k, saved), k, op);
    assert Releases(s, k, op, saved) == GuestRemoved(Ended(s, k, saved), k, op);
  }

  lemma GuestKeepsInv(s: World, step: GuestStep)
    requires Inv(s) && GuestEnabled(s, step) && TasksHaveRows(s)
    ensures Kept(s, TakeGuest(s, step))
  {
    hide RowsEvolve, ClaimsEvolve, SpacesEvolve, Inv;
    SpacesStay(s.workspaces);
    SameEvolves(s, s);
    match step
    case Acquire(k, op, saved) => AcquireKeepsInv(s, k, op, saved);
    case Release(k, op, saved) => ReleaseKeepsInv(s, k, op, saved);
    case Baseline(k, saved) =>
      RowFacts(s, k);
      RecordEvolves(s, k, saved);
      RecordKeepsInv(s, k, saved);
  }

  // ---------- Looking and observing ----------

  lemma LookKeepsInv(s: World, step: LookStep)
    requires Inv(s) && LookEnabled(s, step)
    ensures Kept(s, TakeLook(s, step))
  {
    hide Evolves, Inv, Legal, RowOk, HasGuests;
    var r := s.rows[step.key];
    RowFacts(s, step.key);
    match step
    case Expire(k, saved) =>
      ExpiringLegal(r, s.clock);
      WrittenKeepsInv(s, k, Expiring(r), saved);
    case LookCleanup(k, outcome, saved) =>
      CleanedLegal(r, outcome, s.clock);
      WrittenKeepsInv(s, k, CleanedRow(r, outcome), saved);
    case LookMissing(k, saved) =>
      SeenLegal(r, MissingRow(r), s.clock);
      WrittenKeepsInv(s, k, MissingRow(r), saved);
    case LookUnknown(k, failure, saved) =>
      UnknownLegal(r, Outcome(false, "", "", failure), s.clock);
      WrittenKeepsInv(s, k, UnknownRow(r, failure), saved);
    case LookSeen(k, state, saved) =>
      var r' := r.(state := state, failure := "", revision := r.revision + 1);
      SeenLegal(r, r', s.clock);
      WrittenKeepsInv(s, k, r', saved);
  }

  lemma ObservationKeepsInv(s: World, tid: nat, r: Row, saved: bool)
    requires Inv(s) && tid in s.tasks && s.tasks[tid].Observing? && Idle(s, s.tasks[tid].key)
             && Open(s, s.tasks[tid].key)
    requires !Terminal(r.state) && Named(s, s.tasks[tid].key, r.backendId)
    requires var k := s.tasks[tid].key;
             r == s.rows[k].(backendId := r.backendId, assignment := r.assignment, state := r.state,
                             failure := r.failure)
    ensures Kept(s, Observed(Dropped(s, tid), s.tasks[tid].key, r, saved))
  {
    hide RowsEvolve, ClaimsEvolve, SpacesEvolve, Inv;
    SpacesStay(s.workspaces);
    SameEvolves(s, s);
    RowFacts(s, s.tasks[tid].key);
    DropKeepsInv(s, tid);
    ObservedKeepsInv(Dropped(s, tid), s.tasks[tid].key, r, saved);
  }

  lemma RepairBeginsKeepsInv(s: World, tid: nat, t: Task)
    requires Inv(s) && Unmoved(s, tid) && t.key == s.tasks[tid].key && t.base == s.rows[t.key]
    requires (t.Routing? || t.Forgetting?) && PayloadOk(t, s.live, s.pending, s.clock)
    ensures Kept(s, Fence(Dropped(s, tid), tid, t))
  {
    hide RowsEvolve, ClaimsEvolve, SpacesEvolve, Inv, PayloadOk;
    SpacesStay(s.workspaces);
    SameEvolves(s, s);
    DropKeepsInv(s, tid);
    FenceKeepsInv(Dropped(s, tid), tid, t);
  }

  lemma RoutingReturnsKeepsInv(s: World, tid: nat, outcome: Outcome, saved: bool)
    requires Inv(s) && tid in s.tasks && s.tasks[tid].Routing? && s.tasks[tid].key in s.rows
    ensures Kept(s, RoutingSettles(s, tid, outcome, saved))
  {
    hide RowsEvolve, ClaimsEvolve, SpacesEvolve, Inv;
    SpacesStay(s.workspaces);
    SameEvolves(s, s);
    var t := s.tasks[tid];
    OwnerFacts(s, tid);
    UnfenceKeepsInv(s, tid);
    var routed := t.next.(assignment := outcome.assignment);
    ObservedKeepsInv(Unfence(s, tid), t.key, if outcome.ok then routed
                     else routed.(state := Unknown, failure := outcome.failure), saved);
  }

  lemma ForgettingReturnsKeepsInv(s: World, tid: nat, outcome: Outcome, saved: bool)
    requires Inv(s) && tid in s.tasks && s.tasks[tid].Forgetting? && s.tasks[tid].key in s.rows
    ensures Kept(s, ForgettingSettles(s, tid, outcome, saved))
  {
    hide RowsEvolve, ClaimsEvolve, SpacesEvolve, Inv;
    SpacesStay(s.workspaces);
    SameEvolves(s, s);
    var t := s.tasks[tid];
    OwnerFacts(s, tid);
    UnfenceKeepsInv(s, tid);
    var routed := t.base.(assignment := outcome.assignment);
    if outcome.ok {
      WrittenKeepsInv(Unfence(s, tid), t.key, MissingRow(routed), saved);
    } else {
      ObservedKeepsInv(Unfence(s, tid), t.key, routed.(state := Unknown, failure := outcome.failure), saved);
    }
  }

  lemma ObserverFacts(s: World, tid: nat)
    requires Inv(s) && tid in s.tasks && s.tasks[tid].Observing?
    ensures PayloadOk(s.tasks[tid], s.live, s.pending, s.clock)
  {
    hide DataOk, FencesOwned, Later, PayloadOk;
    assert TaskOk(s, s.tasks[tid]);
  }

  lemma ObserveKeepsInv(s: World, step: ObserveStep)
    requires Inv(s) && ObserveEnabled(s, step) && TasksHaveRows(s)
    ensures Kept(s, TakeObserve(s, step))
  {
    hide RowsEvolve, ClaimsEvolve, SpacesEvolve, Inv, TasksHaveRows, Legal, RowOk;
    SpacesStay(s.workspaces);
    SameEvolves(s, s);
    match step
    case Observe(tid, k) => ObserverKeepsInv(s, tid, k);
    case ObserveAbsent(tid) =>
      ObserverFacts(s, tid);
      ReplaceKeepsInv(s, tid, s.tasks[tid].(absent := true));
    case ObserveUnknown(tid, outcome, saved) =>
      var k := s.tasks[tid].key;
      ObservationKeepsInv(s, tid, Learned(s.rows[k], outcome).(state := Unknown, failure := outcome.failure), saved);
    case ObserveSeen(tid, outcome, state, saved) =>
      var k := s.tasks[tid].key;
      ObservationKeepsInv(s, tid, Learned(s.rows[k], outcome).(state := state, failure := ""), saved);
    case ObserveDropped(tid) => DropKeepsInv(s, tid);
    case BeginRouting(tid, outcome, state) =>
      var k := s.tasks[tid].key;
      RepairBeginsKeepsInv(s, tid, Routing(k, s.rows[k], Learned(s.rows[k], outcome).(state := state, failure := "")));
    case RoutingReturns(tid, outcome, saved) =>
      OwnerFacts(s, tid);
      RoutingReturnsKeepsInv(s, tid, outcome, saved);
    case BeginForgetting(tid) =>
      ObserverFacts(s, tid);
      RepairBeginsKeepsInv(s, tid, Forgetting(s.tasks[tid].key, s.rows[s.tasks[tid].key]));
    case ForgettingReturns(tid, outcome, saved) =>
      OwnerFacts(s, tid);
      ForgettingReturnsKeepsInv(s, tid, outcome, saved);
  }

  // ---------- Workspaces ----------

  /** The workspace tables changed, nothing else. */
  lemma SpaceInvRest(s: World, s': World)
    requires Inv(s) && s' == s.(workspaces := s'.workspaces, workspaceFence := s'.workspaceFence,
                                workspaceTasks := s'.workspaceTasks)
    requires MountsOk(s'.rows, s'.workspaces) && WorkspacesOk(s')
    ensures Inv(s')
  {
    hide RowsOk, LiveOk, MountsOk, WorkspacesOk, QuotaOk, GuestsCounted, GuestsOk, ActivityOk, ClaimsOk, PayloadOk,
         Later, Owned, Exclusive;
    SameRows(s, s');
    SameGuests(s, s');
    SameActivity(s, s');
    SameLive(s, s');
    forall uid | uid in s'.tasks ensures TaskOk(s', s'.tasks[uid]) {
      assert TaskOk(s, s.tasks[uid]);
    }
  }

  lemma SpaceParts(s: World)
    requires Inv(s)
    ensures MountsOk(s.rows, s.workspaces) && WorkspacesOk(s)
  {
    hide MountsOk, WorkspacesOk;
  }

  lemma PutKeepsMounts(s: World, k: Key, w: WorkspaceRow)
    requires MountsOk(s.rows, s.workspaces) && (w.cleanup ==> !Mounted(s.rows, k))
    ensures MountsOk(s.rows, s.workspaces[k := w])
  {
    hide NoRepeat, Mounts, Mounted;
  }

  lemma PutKeepsInv(s: World, k: Key, w: WorkspaceRow)
    requires Inv(s) && k !in s.workspaceFence && (w.cleanup ==> !Mounted(s.rows, k) && w.state != WorkspaceReady)
    requires w.state == WorkspaceDeleting ==> w.cleanup
    ensures Inv(s.(workspaces := s.workspaces[k := w]))
  {
    hide Inv, MountsOk, Mounted;
    SpaceParts(s);
    PutKeepsMounts(s, k, w);
    SpaceInvRest(s, s.(workspaces := s.workspaces[k := w]));
  }

  lemma CleanedWorkspaceUnmounted(s: World, k: Key)
    requires Inv(s) && k in s.workspaces && s.workspaces[k].cleanup
    ensures !Mounted(s.rows, k)
  {
    hide Mounted;
    SpaceParts(s);
  }

  lemma SettledKeepsInv(s: World, k: Key, w: WorkspaceRow, verdict: WorkspaceOutcome, saved: bool)
    requires Inv(s) && k !in s.workspaceFence && (w.cleanup ==> !Mounted(s.rows, k))
             && (w.state == WorkspaceDeleting ==> w.cleanup)
    ensures Inv(PutWorkspace(s, k, WorkspaceSettled(w, verdict, s.clock), saved))
  {
    hide Inv, Mounted;
    if saved {
      PutKeepsInv(s, k, WorkspaceSettled(w, verdict, s.clock));
    }
  }

  lemma WorkspaceTaskFacts(s: World, tid: nat)
    requires Inv(s) && tid in s.workspaceTasks
    ensures var t := s.workspaceTasks[tid];
            && (t.base.cleanup ==> !Mounted(s.rows, t.key)) && (t.base.state == WorkspaceDeleting ==> t.base.cleanup)
            && Inv(s.(workspaceFence := s.workspaceFence - {t.key}, workspaceTasks := s.workspaceTasks - {tid}))
  {
    hide Inv, MountsOk, Mounted;
    var t := s.workspaceTasks[tid];
    SpaceParts(s);
    SpaceInvRest(s, s.(workspaceFence := s.workspaceFence - {t.key}, workspaceTasks := s.workspaceTasks - {tid}));
    if t.base.cleanup {
      CleanedWorkspaceUnmounted(s, t.key);
    }
  }

  lemma WorkspaceReturnsKeepsInv(s: World, tid: nat, verdict: WorkspaceOutcome, saved: bool)
    requires Inv(s) && tid in s.workspaceTasks
    ensures Inv(WorkspaceSettles(s, tid, verdict, saved))
  {
    hide Inv, Mounted, WorkspaceSettled;
    var t := s.workspaceTasks[tid];
    WorkspaceTaskFacts(s, tid);
    var s' := s.(workspaceFence := s.workspaceFence - {t.key}, workspaceTasks := s.workspaceTasks - {tid});
    SettledKeepsInv(s', t.key, t.base, verdict, saved);
  }

  lemma CreateWorkspaceKeepsInv(s: World, k: Key, verdict: WorkspaceOutcome, settled: bool)
    requires Inv(s) && k !in s.workspaces
    ensures var w := WorkspaceRow(WorkspacePreparing, false, "", s.clock, "");
            Inv(PutWorkspace(PutWorkspace(s, k, w, true), k, WorkspaceSettled(w, verdict, s.clock), settled))
  {
    hide Inv, MountsOk, Mounted, WorkspaceSettled;
    var w := WorkspaceRow(WorkspacePreparing, false, "", s.clock, "");
    SpaceParts(s);
    PutKeepsInv(s, k, w);
    SettledKeepsInv(PutWorkspace(s, k, w, true), k, w, verdict, settled);
  }

  lemma DeleteWorkspaceKeepsInv(s: World, k: Key, w: WorkspaceRow, verdict: WorkspaceOutcome, settled: bool)
    requires Inv(s) && k !in s.workspaceFence && !Mounted(s.rows, k) && w.cleanup && w.state == WorkspaceDeleting
    ensures Inv(PutWorkspace(PutWorkspace(s, k, w, true), k, WorkspaceSettled(w, verdict, s.clock), settled))
  {
    hide Inv, Mounted, WorkspaceSettled;
    PutKeepsInv(s, k, w);
    SettledKeepsInv(PutWorkspace(s, k, w, true), k, w, verdict, settled);
  }

  lemma PutEvolves(s: World, k: Key, w: WorkspaceRow, saved: bool)
    requires k in s.workspaces && s.workspaces[k].cleanup ==> w.cleanup
    ensures Evolves(s, PutWorkspace(s, k, w, saved))
  {
    hide RowsEvolve, ClaimsEvolve, Evolves;
    SameEvolves(s, PutWorkspace(s, k, w, saved));
  }

  lemma PutTwiceEvolves(s: World, k: Key, w: WorkspaceRow, w': WorkspaceRow, saved: bool)
    requires (k in s.workspaces && s.workspaces[k].cleanup ==> w.cleanup) && (w.cleanup ==> w'.cleanup)
    ensures Evolves(s, PutWorkspace(PutWorkspace(s, k, w, true), k, w', saved))
  {
    hide Evolves;
    var spaces := s.workspaces;
    assert spaces[k := w][k := w'] == spaces[k := w'];
    PutEvolves(s, k, if saved then w' else w, true);
  }

  lemma SpaceEvolves(s: World, step: WorkspaceStep)
    requires SpaceEnabled(s, step)
    ensures Evolves(s, TakeSpace(s, step))
  {
    hide Evolves, SpacesEvolve, Mounted, WorkspaceSettled, PutWorkspace, WorkspaceSettles;
    SpacesStay(s.workspaces);
    SameEvolves(s, s);
    match step
    case CreateWorkspace(k, verdict, saved, settled) =>
      var w := WorkspaceRow(WorkspacePreparing, false, "", s.clock, "");
      PutTwiceEvolves(s, k, w, WorkspaceSettled(w, if verdict.Absent? then Unclear("") else verdict, s.clock), settled);
    case DeleteWorkspace(k, verdict, saved, settled) =>
      var w := s.workspaces[k].(state := WorkspaceDeleting, cleanup := true, updatedAt := s.clock, failure := "");
      SettledKeepsCleanup(w, verdict, s.clock);
      PutTwiceEvolves(s, k, w, WorkspaceSettled(w, verdict, s.clock), settled);
    case BeginWorkspace(tid, k) =>
      SameEvolves(s, TakeSpace(s, step));
    case WorkspaceReturns(tid, verdict, saved) =>
      SettlesEvolves(s, tid, verdict, saved);
  }

  lemma SettlesEvolves(s: World, tid: nat, verdict: WorkspaceOutcome, saved: bool)
    requires tid in s.workspaceTasks
    ensures Evolves(s, WorkspaceSettles(s, tid, verdict, saved))
  {
    hide RowsEvolve, ClaimsEvolve, Evolves, WorkspaceSettled;
    SettledKeepsCleanup(s.workspaceTasks[tid].base, verdict, s.clock);
    SameEvolves(s, WorkspaceSettles(s, tid, verdict, saved));
  }

  lemma SettledKeepsCleanup(w: WorkspaceRow, verdict: WorkspaceOutcome, clock: int)
    ensures WorkspaceSettled(w, verdict, clock).cleanup == w.cleanup
  {
  }

  lemma SpaceKeepsInv(s: World, step: WorkspaceStep)
    requires Inv(s) && SpaceEnabled(s, step)
    ensures Kept(s, TakeSpace(s, step))
  {
    hide Evolves, Inv, MountsOk, Mounted, WorkspaceSettled, PutWorkspace;
    SpaceEvolves(s, step);
    match step
    case CreateWorkspace(k, verdict, saved, settled) =>
      CreateWorkspaceKeepsInv(s, k, if verdict.Absent? then Unclear("") else verdict, settled);
    case DeleteWorkspace(k, verdict, saved, settled) =>
      var w := s.workspaces[k].(state := WorkspaceDeleting, cleanup := true, updatedAt := s.clock, failure := "");
      DeleteWorkspaceKeepsInv(s, k, w, verdict, settled);
    case BeginWorkspace(tid, k) =>
      SpaceParts(s);
      SpaceInvRest(s, s.(workspaceFence := s.workspaceFence + {k},
                         workspaceTasks := s.workspaceTasks[tid := WorkspaceTask(k, s.workspaces[k])]));
    case WorkspaceReturns(tid, verdict, saved) => WorkspaceReturnsKeepsInv(s, tid, verdict, saved);
  }

  // ---------- Every run ----------

  lemma StepKeepsInv(s: World, step: Step)
    requires Inv(s) && Enabled(s, step) && TasksHaveRows(s)
    ensures Kept(s, Take(s, step))
  {
    hide Inv, Evolves, TasksHaveRows, CreationEnabled, ChangeEnabled, GuestEnabled, LookEnabled, ObserveEnabled,
         SpaceEnabled,
         TakeCreation, TakeChange, TakeGuest, TakeLook, TakeObserve, TakeSpace;
    match step
    case Tick(elapsed) =>
      TickKeepsInv(s, elapsed);
      SameEvolves(s, s.(clock := s.clock + elapsed));
    case Crash =>
      CrashKeepsInv(s);
      SameEvolves(s, Crashed(s));
    case Creation(c) => CreationKeepsInv(s, c);
    case Changes(c) => ChangeKeepsInv(s, c);
    case Guest(g) => GuestKeepsInv(s, g);
    case Look(l) => LookKeepsInv(s, l);
    case Observation(o) => ObserveKeepsInv(s, o);
    case Space(w) => SpaceKeepsInv(s, w);
  }

  ghost predicate Init(s: World) {
    s == World(s.clock, s.limits, map[], map[], map[], {}, map[], {}, map[], {}, map[], map[], map[], {}, [], [], map[])
  }

  /** `ControllerSafety.InvHasRows` shows that the first conjunct excludes no step. */
  ghost predicate Next(s: World, s': World) {
    TasksHaveRows(s) && exists step :: Enabled(s, step) && s' == Take(s, step)
  }

  ghost predicate IsRun(run: seq<World>) {
    |run| > 0 && Init(run[0]) && forall i | 0 <= i < |run| - 1 :: Next(run[i], run[i + 1])
  }

  lemma InitInv(s: World)
    requires Init(s)
    ensures Inv(s)
  {
    assert forall p :: Outstanding(s.guests, p) == {};
    assert Active(s.rows) == {} && forall p :: ActiveIn(s.rows, p) == {};
  }

  lemma NextKeepsInv(s: World, s': World)
    requires Inv(s) && Next(s, s')
    ensures Kept(s, s')
  {
    hide Inv, Evolves, Enabled, Take, TasksHaveRows;
    var step :| Enabled(s, step) && s' == Take(s, step);
    StepKeepsInv(s, step);
  }

  lemma {:induction false} RunInv(run: seq<World>, i: nat)
    requires IsRun(run) && i < |run|
    ensures Inv(run[i])
    decreases i
  {
    hide Inv, Init, Next, Evolves;
    if i == 0 {
      InitInv(run[0]);
    } else {
      RunInv(run, i - 1);
      NextKeepsInv(run[i - 1], run[i]);
    }
  }

  lemma {:induction false} RunSince(run: seq<World>, i: nat, j: nat)
    requires IsRun(run) && i <= j < |run|
    ensures Since(run[i], run[j])
    decreases j
  {
    hide Inv, Init, Next, Since, Evolves;
    if i == j {
      SinceSelf(run[i]);
    } else {
      RunSince(run, i, j - 1);
      RunInv(run, j - 1);
      NextKeepsInv(run[j - 1], run[j]);
      SinceThen(run[i], run[j - 1], run[j]);
    }
  }

  lemma SinceSelf(s: World)
    ensures Since(s, s)
  {
    hide SameFixed, Terminal;
  }

  // ---------- No lost updates ----------

  /** A sandbox's fence has one owner, there are no guests behind it, and the row is still the one its owner
      started from: whatever the owner writes replaces exactly what it saw. */
  lemma FenceHasOneOwner(run: seq<World>, i: nat, k: Key)
    requires IsRun(run) && i < |run| && k in run[i].fence
    ensures exists tid ::
              && tid in run[i].tasks && Fenced(run[i].tasks[tid]) && run[i].tasks[tid].key == k
              && (forall uid | uid in run[i].tasks && Fenced(run[i].tasks[uid])
                  && run[i].tasks[uid].key == k :: uid == tid)
              && k in run[i].rows && run[i].rows[k] == run[i].tasks[tid].base
    ensures !HasGuests(run[i], k)
  {
    hide IsRun, DataOk, PayloadOk, Later;
    var s := run[i];
    RunInv(run, i);
    assert Owned(s.tasks, k);
    var tid :| tid in s.tasks && Fenced(s.tasks[tid]) && s.tasks[tid].key == k;
    assert TaskOk(s, s.tasks[tid]);
    forall uid | uid in s.tasks && Fenced(s.tasks[uid]) && s.tasks[uid].key == k ensures uid == tid {
      assert uid != tid ==> Exclusive(s.tasks[tid], s.tasks[uid]);
    }
  }

  /** Between any two moments a row is unchanged or has a higher revision; equal revisions mean equal rows,
      so comparing revisions cannot be fooled by a row that changed and changed back. */
  lemma RevisionsIdentifyRows(run: seq<World>, i: nat, j: nat, k: Key)
    requires IsRun(run) && i <= j < |run| && k in run[i].rows
    ensures k in run[j].rows
    ensures run[j].rows[k] == run[i].rows[k] || run[j].rows[k].revision > run[i].rows[k].revision
    ensures run[j].rows[k].revision == run[i].rows[k].revision ==> run[j].rows[k] == run[i].rows[k]
  {
    hide IsRun, ClaimsEvolve, Terminal, SameFixed;
    RunSince(run, i, j);
  }

  /** The reconciler's optimistic check: if the revision is the one it observed, so is the whole row. */
  lemma ObserverCheckIsExact(run: seq<World>, i: nat, tid: nat)
    requires IsRun(run) && i < |run| && tid in run[i].tasks && run[i].tasks[tid].Observing?
    requires run[i].tasks[tid].key in run[i].rows
             && run[i].rows[run[i].tasks[tid].key].revision == run[i].tasks[tid].base.revision
    ensures run[i].rows[run[i].tasks[tid].key] == run[i].tasks[tid].base
  {
    hide IsRun, DataOk, FencesOwned, PayloadOk;
    RunInv(run, i);
    assert TaskOk(run[i], run[i].tasks[tid]);
  }

  // ---------- One writer per workspace ----------

  /** The backend runs the sandbox with the workspace mounted, or may still start it so: a create it was asked
      for may land after a crash, or after its caller was told nothing certain. */
  predicate MayWrite(s: World, k: Key, w: string) {
    (k in s.live && w in s.live[k]) || (k in s.pending && k in s.rows && w in s.rows[k].mounts)
  }

  lemma WriterIsMounted(s: World, k: Key, w: string)
    requires LiveOk(s)
    ensures MayWrite(s, k, w) ==> Mounts(s.rows, k, w)
  {
  }

  lemma RunParts(run: seq<World>, i: nat)
    requires IsRun(run) && i < |run|
    ensures LiveOk(run[i]) && MountsOk(run[i].rows, run[i].workspaces) && WorkspacesOk(run[i]) && ClaimsOk(run[i])
  {
    hide IsRun, LiveOk, MountsOk, WorkspacesOk, ClaimsOk;
    RunInv(run, i);
  }

  /** No two sandboxes that the backend runs, or may still start, mount the same workspace. */
  lemma BackendSingleWriter(run: seq<World>, i: nat, j: Key, k: Key, w: string)
    requires IsRun(run) && i < |run| && j.projectId == k.projectId && MayWrite(run[i], j, w) && MayWrite(run[i], k, w)
    ensures j == k
  {
    hide IsRun, LiveOk, WorkspacesOk, ClaimsOk, NoRepeat, Mounted, Mounts, MayWrite;
    RunParts(run, i);
    WriterIsMounted(run[i], j, w);
    WriterIsMounted(run[i], k, w);
  }

  /** In every reachable state at most one non-terminal sandbox references a workspace. */
  lemma SingleAttachment(run: seq<World>, i: nat, j: Key, k: Key, w: string)
    requires IsRun(run) && i < |run| && j.projectId == k.projectId && Mounts(run[i].rows, j, w)
             && Mounts(run[i].rows, k, w)
    ensures j == k
  {
    hide IsRun, LiveOk, WorkspacesOk, ClaimsOk, NoRepeat, Mounted, Mounts;
    RunParts(run, i);
  }

  /** Why a confirmed absence has to be final: were a cleanup told that a create which may still land is gone, its
      workspace could be given to another sandbox, and both could write. */
  lemma FinalAbsenceIsNeeded(s: World, tid: nat, outcome: Outcome, step: CreationStep, w: string)
    requires tid in s.tasks && s.tasks[tid].Cleaning? && s.tasks[tid].key in s.rows && s.tasks[tid].key in s.pending
    requires s.rows[s.tasks[tid].key].cleanup.Some? && outcome.ok && w in s.rows[s.tasks[tid].key].mounts
    requires step.Create? && step.claim.projectId == s.tasks[tid].key.projectId && w in step.mounts
    requires CreationEnabled(CleaningSettles(s, tid, outcome, true), step)
    ensures var k, j := s.tasks[tid].key, Key(step.claim.projectId, step.id);
            var s' := Inserted(CleaningSettles(s, tid, outcome, true), step);
            j != k && MayWrite(s', k, w) && MayWrite(s', j, w)
  {
    hide Admits;
  }

  /** From the moment the decision to delete a workspace is durable, and ever after, no non-terminal sandbox
      mounts it and the backend neither runs nor may start one that does. Every request to the backend to delete
      a workspace is made after that moment. */
  lemma DeletedWorkspaceIsUnmounted(run: seq<World>, i: nat, j: nat, w: Key)
    requires IsRun(run) && i <= j < |run| && w in run[i].workspaces
    requires run[i].workspaces[w].cleanup || run[i].workspaces[w].state == WorkspaceDeleting
    ensures w in run[j].workspaces && run[j].workspaces[w].cleanup && !Mounted(run[j].rows, w)
    ensures forall k: Key | k.projectId == w.projectId :: !MayWrite(run[j], k, w.id)
  {
    hide IsRun, LiveOk, ClaimsOk, NoRepeat, MayWrite, ClaimsEvolve, Later;
    RunParts(run, i);
    RunParts(run, j);
    RunSince(run, i, j);
    forall k: Key | k.projectId == w.projectId ensures !MayWrite(run[j], k, w.id) {
      WriterIsMounted(run[j], k, w.id);
    }
  }

  /** A running workspace task that deletes acts on such a workspace. */
  lemma DeletingTaskHasIntent(run: seq<World>, i: nat, tid: nat)
    requires IsRun(run) && i < |run| && tid in run[i].workspaceTasks
    requires run[i].workspaceTasks[tid].base.cleanup || run[i].workspaceTasks[tid].base.state == WorkspaceDeleting
    ensures run[i].workspaceTasks[tid].key in run[i].workspaces
            && run[i].workspaces[run[i].workspaceTasks[tid].key].cleanup
  {
    hide IsRun, LiveOk, ClaimsOk, MountsOk;
    RunParts(run, i);
  }

  // ---------- Cleanup and terminal states ----------

  lemma TerminalIsFinal(run: seq<World>, i: nat, j: nat, k: Key)
    requires IsRun(run) && i <= j < |run| && k in run[i].rows && Terminal(run[i].rows[k].state)
    ensures k in run[j].rows && run[j].rows[k] == run[i].rows[k]
  {
    hide IsRun, ClaimsEvolve, SameFixed;
    RunSince(run, i, j);
  }

  /** Once cleanup is decided the sandbox is deleting, unknown or at its target ever after, and no guest
      operation starts. */
  lemma CleanupIsFinal(run: seq<World>, i: nat, j: nat, k: Key)
    requires IsRun(run) && i <= j < |run| && k in run[i].rows && run[i].rows[k].cleanup.Some?
    ensures k in run[j].rows && run[j].rows[k].cleanup.Some?
    ensures run[j].rows[k].state in {Deleting, Unknown, run[j].rows[k].cleanup.value}
    ensures forall op, saved :: !GuestEnabled(run[j], Acquire(k, op, saved))
  {
    hide IsRun, ClaimsEvolve, SameFixed, Inv;
    RunSince(run, i, j);
    RunInv(run, j);
    RowFacts(run[j], k);
  }

  /** It becomes terminal only in the target it had. */
  lemma CleanupEndsInItsTarget(run: seq<World>, i: nat, k: Key)
    requires IsRun(run) && i + 1 < |run| && k in run[i].rows && run[i].rows[k].cleanup.Some?
             && !Terminal(run[i].rows[k].state)
    ensures k in run[i + 1].rows
    ensures Terminal(run[i + 1].rows[k].state) ==> run[i + 1].rows[k].state == run[i].rows[k].cleanup.value
  {
    hide IsRun, ClaimsEvolve, SameFixed, Inv;
    RunInv(run, i);
    RunInv(run, i + 1);
    RunStep(run, i);
    RowFacts(run[i + 1], k);
  }

  lemma RunStep(run: seq<World>, i: nat)
    requires IsRun(run) && i + 1 < |run|
    ensures Evolves(run[i], run[i + 1])
  {
    hide Inv, Next, Evolves, Init;
    RunInv(run, i);
    NextKeepsInv(run[i], run[i + 1]);
  }

  // ---------- One create per claim ----------

  /** Over retries, concurrent calls and crashes the backend is asked to create at most once per claim, and a
      claim, once made, names the same operation, digest and sandbox ever after. */
  lemma OneCreatePerClaim(run: seq<World>, i: nat, j: nat, c: ClaimKey)
    requires IsRun(run) && i <= j < |run|
    ensures NoRepeat(run[j].creates)
    ensures c in run[i].claims ==>
              c in run[j].claims && run[j].claims[c] == run[i].claims[c] && run[j].claims[c].sandbox in run[j].rows
    ensures c in run[j].creates ==> c in run[j].claims
  {
    hide IsRun, Later, LiveOk, MountsOk, WorkspacesOk, NoRepeat, SpacesEvolve;
    RunSince(run, i, j);
    RunParts(run, j);
  }

  /** All create calls with one key, first ones and retries alike, are answered with one operation or with a
      conflict; the same request is always answered the same, and only one request is not refused. */
  lemma CreateAnswersAgree(run: seq<World>, i: nat, a: nat, b: nat)
    requires IsRun(run) && i < |run| && a < |run[i].answers| && b < |run[i].answers|
    requires run[i].answers[a].claim == run[i].answers[b].claim
    ensures var x, y := run[i].answers[a], run[i].answers[b];
            && (x.operationId.Some? && y.operationId.Some? ==> x.operationId == y.operationId)
            && (x.digest == y.digest ==> x.operationId == y.operationId)
            && x.claim in run[i].claims
            && (run[i].claims[x.claim].digest != "" && x.digest != y.digest ==>
                x.operationId == None
                || y.operationId == None)
  {
    hide IsRun, LiveOk, MountsOk, WorkspacesOk, NoRepeat;
    RunParts(run, i);
  }

  /** Whenever a claim has been made, at any later time a call with its digest is answered with its operation and,
      unless the claim has none, a call with another digest is refused. */
  lemma RetryIsAnsweredAlike(run: seq<World>, i: nat, j: nat, a: nat)
    requires IsRun(run) && i <= j < |run| && a < |run[j].answers| && run[j].answers[a].claim in run[i].claims
    ensures var claim, x := run[i].claims[run[j].answers[a].claim], run[j].answers[a];
            x.operationId == if claim.digest == "" || x.digest == claim.digest then Some(claim.operationId) else None
  {
    hide IsRun, Later, LiveOk, MountsOk, WorkspacesOk, NoRepeat, SpacesEvolve;
    RunSince(run, i, j);
    RunParts(run, j);
  }

  // ---------- Standby and quotas ----------

  /** Automatic standby waits out the idle and grace periods after every guest start and end of this process,
      recorded or not. */
  lemma AutoStandbyWaits(run: seq<World>, i: nat, k: Key)
    requires IsRun(run) && i < |run| && MayBegin(run[i], k, AutoPause) && k in run[i].lastGuest
    ensures run[i].clock >=
              run[i].lastGuest[k]
              + (run[i].rows[k].lifecycle.standbyAfter + run[i].rows[k].lifecycle.standbyGrace) * 1_000_000_000
  {
    hide IsRun, LiveOk, MountsOk, WorkspacesOk, QuotaOk, GuestsCounted, GuestsOk, ClaimsOk, TasksOk, FencesOwned,
         HasGuests;
    RunInv(run, i);
    RowFacts(run[i], k);
  }

  lemma ActivityNeverGoesBack(run: seq<World>, i: nat, j: nat, k: Key)
    requires IsRun(run) && i <= j < |run| && k in run[i].rows
    ensures k in run[j].rows && run[i].rows[k].lastActiveAt <= run[j].rows[k].lastActiveAt <= run[j].clock
  {
    hide IsRun, ClaimsEvolve, SameFixed, Inv;
    RunSince(run, i, j);
    RunInv(run, j);
    RowFacts(run[j], k);
  }

  lemma QuotasHold(run: seq<World>, i: nat, p: string)
    requires IsRun(run) && i < |run|
    ensures |Active(run[i].rows)| <= run[0].limits.total && |ActiveIn(run[i].rows, p)| <= run[0].limits.perProject
    ensures Count(run[i], p) == |Outstanding(run[i].guests, p)| <= run[0].limits.guestsPerProject
  {
    hide IsRun, Later, RowsOk, LiveOk, MountsOk, WorkspacesOk, GuestsOk, ActivityOk, ClaimsOk, TasksOk, FencesOwned,
         Active, ActiveIn, Outstanding;
    RunInv(run, i);
    RunSince(run, 0, i);
  }
}
