/** The controller's locked sections as the service writes them: each checks its guards, writes durably if
    the store lets it, and updates fences, guests and recent activity in place. Every call keeps the
    controller's invariant and is a step of its machine, or no change at all. */
module Service {
  import opened Records
  import opened Controller
  import opened ControllerSafety
  import opened ControllerRuns
  import opened ControllerOutcomes

  /** One step of the machine happened, and the invariant holds. */
  ghost predicate Taken(s: World, s': World) {
    Inv(s') && Next(s, s')
  }

  /** Nothing happened, or one step did. */
  ghost predicate Stepped(s: World, s': World) {
    s' == s || Taken(s, s')
  }

  lemma StepTaken(s: World, step: Step)
    requires Inv(s) && Enabled(s, step)
    ensures TasksHaveRows(s) && Taken(s, Take(s, step))
  {
    hide Inv, Enabled, Take, TasksHaveRows, Evolves;
    InvHasRows(s);
    StepKeepsInv(s, step);
  }

  lemma BeginTaken(s: World, tid: nat, k: Key, change: Change)
    requires Inv(s) && tid !in s.tasks && MayBegin(s, k, change)
    ensures Taken(s, Begins(s, tid, k, change, true))
  {
    hide Inv, Next, MayBegin, Begins, TasksHaveRows;
    StepTaken(s, Changes(Begin(tid, k, change, true)));
  }

  /** A transition that comes back finds the row it began with. */
  lemma ChangeFacts(s: World, tid: nat)
    requires Inv(s) && tid in s.tasks && s.tasks[tid].Changing?
    ensures var t := s.tasks[tid]; t.key in s.rows && s.rows[t.key] == t.base && t.base.state == Transitional(t.change)
  {
    hide Inv, Legal, RowOk, HasGuests;
    OwnerFacts(s, tid);
  }

  lemma ChangeTaken(s: World, tid: nat, outcome: Outcome, saved: bool)
    requires Inv(s) && tid in s.tasks && s.tasks[tid].Changing?
    ensures ChangeEnabled(s, ChangeReturns(tid, outcome, saved)) ==> Taken(s, ChangeSettles(s, tid, outcome, saved))
  {
    hide Inv, Next, ChangeEnabled, ChangeSettles, TasksHaveRows;
    if ChangeEnabled(s, ChangeReturns(tid, outcome, saved)) {
      StepTaken(s, Changes(ChangeReturns(tid, outcome, saved)));
    }
  }

  function Changed(base: Row, change: Change, outcome: Outcome, clock: int): Row {
    if outcome.ok then Completed(Learned(base, outcome), change, clock)
        else UnknownRow(Learned(base, outcome), outcome.failure)
  }

  function Touched(s: World, k: Key, used: bool): World {
    if used then s.(recent := s.recent[k := s.clock]) else s
  }

  /** An owner that settled has given its fence back and, if the store let it, written its row. */
  lemma ChangeSettlesAs(s: World, tid: nat, outcome: Outcome, saved: bool)
    requires tid in s.tasks && s.tasks[tid].Changing?
    ensures var t, s' := s.tasks[tid], ChangeSettles(s, tid, outcome, saved);
            && s' == Touched(Write(Unfence(s, tid), t.key, Changed(t.base, t.change, outcome, s.clock), saved), t.key,
                             outcome.ok && Target(t.change) == Running)
            && t.key !in s'.fence
            && s'.rows == (if saved then s.rows[t.key := Changed(t.base, t.change, outcome, s.clock)] else s.rows)
  {
  }

  lemma CleaningBegins(s: World, tid: nat, k: Key)
    requires Inv(s) && k in s.rows && ChangeEnabled(s, BeginCleaning(tid, k))
    ensures Taken(s, Fence(s, tid, Cleaning(k, s.rows[k])))
  {
    hide Inv, Next, ChangeEnabled, Fence, TasksHaveRows;
    StepTaken(s, Changes(BeginCleaning(tid, k)));
  }

  /** A cleanup that comes back finds the row it started from. */
  lemma CleaningFacts(s: World, tid: nat)
    requires Inv(s) && tid in s.tasks && s.tasks[tid].Cleaning?
    ensures var t := s.tasks[tid];
            t.key in s.rows && s.rows[t.key] == t.base && t.base.cleanup.Some?
            && !Terminal(t.base.state)
  {
    hide Inv, Legal, RowOk, HasGuests;
    OwnerFacts(s, tid);
  }

  function CleanupWritten(s: World, k: Key, outcome: Outcome, saved: bool): World
    requires k in s.rows && s.rows[k].cleanup.Some?
  {
    if outcome.ok then Write(s, k, CleanedRow(s.rows[k], outcome), saved)
    else Observed(s, k, Learned(s.rows[k], outcome).(state := Unknown, failure := outcome.failure), saved)
  }

  lemma CleaningSettlesAs(s: World, tid: nat, outcome: Outcome, saved: bool)
    requires tid in s.tasks && s.tasks[tid].Cleaning? && s.tasks[tid].key in s.rows
             && s.rows[s.tasks[tid].key].cleanup.Some?
    ensures CleaningSettles(s, tid, outcome, saved) == CleanupWritten(Unfence(s, tid), s.tasks[tid].key, outcome, saved)
  {
  }

  lemma CleaningTaken(s: World, tid: nat, outcome: Outcome, saved: bool)
    requires tid in s.tasks && s.tasks[tid].Cleaning? && s.tasks[tid].key in s.rows
             && s.rows[s.tasks[tid].key].cleanup.Some?
    requires Inv(s) && ChangeEnabled(s, CleaningReturns(tid, outcome, saved))
    ensures Taken(s, CleaningSettles(s, tid, outcome, saved))
  {
    hide Inv, Next, ChangeEnabled, CleaningSettles, TasksHaveRows;
    StepTaken(s, Changes(CleaningReturns(tid, outcome, saved)));
  }

  lemma AcquireTaken(s: World, k: Key, op: string, saved: bool)
    requires k in s.rows && GuestEnabled(s, Acquire(k, op, saved)) && Inv(s)
    ensures Taken(s, Acquires(s, k, op))
  {
    hide Inv, Next, GuestEnabled, Acquires, TasksHaveRows;
    StepTaken(s, Guest(Acquire(k, op, saved)));
  }

  lemma ReleaseTaken(s: World, k: Key, op: string, saved: bool)
    requires k in s.rows && GuestOp(k, op) in s.guests && Inv(s)
    ensures Taken(s, Releases(s, k, op, saved))
  {
    hide Inv, Next, Releases, TasksHaveRows;
    StepTaken(s, Guest(Release(k, op, saved)));
  }

  lemma ExpireTaken(s: World, k: Key)
    requires k in s.rows && LookEnabled(s, Expire(k, true)) && Inv(s)
    ensures Taken(s, Write(s, k, Expiring(s.rows[k]), true))
  {
    hide Inv, Next, LookEnabled, Write, Expiring, TasksHaveRows;
    StepTaken(s, Look(Expire(k, true)));
  }

  function Seen(s: World, tid: nat, outcome: Outcome, state: SandboxState, saved: bool): World
    requires tid in s.tasks && s.tasks[tid].key in s.rows
  {
    var k := s.tasks[tid].key;
    Observed(Dropped(s, tid), k, Learned(s.rows[k], outcome).(state := state, failure := ""), saved)
  }

  lemma SeenWrites(s: World, tid: nat, outcome: Outcome, state: SandboxState, saved: bool)
    requires tid in s.tasks
    ensures var k := s.tasks[tid].key;
            k in s.rows && saved ==>
              var s' := Seen(s, tid, outcome, state, saved);
                  k in s'.rows
                  && ObservedRow(s.rows[k], s'.rows[k], outcome, state, "")
  {
    hide Observed, Dropped;
    if s.tasks[tid].key in s.rows {
      ObserverWrites(s, tid, Learned(s.rows[s.tasks[tid].key], outcome).(state := state, failure := ""), saved);
    }
  }

  lemma SeenTaken(s: World, tid: nat, outcome: Outcome, state: SandboxState, saved: bool)
    requires tid in s.tasks && s.tasks[tid].Observing? && s.tasks[tid].key in s.rows
    requires Inv(s) && ObserveEnabled(s, ObserveSeen(tid, outcome, state, saved))
    ensures Taken(s, Seen(s, tid, outcome, state, saved))
  {
    hide Inv, Next, ObserveEnabled, Observed, TasksHaveRows;
    StepTaken(s, Observation(ObserveSeen(tid, outcome, state, saved)));
  }

  lemma DropTaken(s: World, tid: nat)
    requires tid in s.tasks && s.tasks[tid].Observing? && Inv(s)
    ensures Taken(s, Dropped(s, tid))
  {
    hide Inv, Next, Dropped, TasksHaveRows;
    StepTaken(s, Observation(ObserveDropped(tid)));
  }

  /** For an observer, the same revision means the same row. */
  lemma SameRevisionSameRow(s: World, tid: nat)
    requires Inv(s) && tid in s.tasks && s.tasks[tid].Observing? && s.tasks[tid].key in s.rows
    requires s.rows[s.tasks[tid].key].revision == s.tasks[tid].base.revision
    ensures s.rows[s.tasks[tid].key] == s.tasks[tid].base
  {
    hide DataOk, FencesOwned, PayloadOk;
    assert TaskOk(s, s.tasks[tid]);
  }

  lemma ObservationFacts(s: World, tid: nat, outcome: Outcome, state: SandboxState, saved: bool)
    requires tid in s.tasks && s.tasks[tid].Observing?
    ensures Unmoved(s, tid) ==> s.tasks[tid].key in s.rows
    ensures Inv(s) ==> Taken(s, Dropped(s, tid))
    ensures Inv(s) && Unmoved(s, tid) ==>
            s.rows[s.tasks[tid].key] == s.tasks[tid].base
            && !Terminal(s.tasks[tid].base.state)
    ensures Inv(s) && Unmoved(s, tid) && ObserveEnabled(s, ObserveSeen(tid, outcome, state, saved)) ==>
              Taken(s, Seen(s, tid, outcome, state, saved))
  {
    hide Inv, Next, Taken, ObserveEnabled, Seen, HasGuests;
    if Inv(s) {
      DropTaken(s, tid);
      if Unmoved(s, tid) {
        SameRevisionSameRow(s, tid);
        if ObserveEnabled(s, ObserveSeen(tid, outcome, state, saved)) {
          SeenTaken(s, tid, outcome, state, saved);
        }
      }
    }
  }

  lemma UsableIsOpen(s: World, k: Key)
    requires Inv(s) && k in s.rows && Usable(s.rows[k])
    ensures s.rows[k].cleanup == None
  {
    hide Inv;
    RowFacts(s, k);
  }

  lemma CountIsExact(s: World, p: string)
    requires Inv(s)
    ensures Count(s, p) == |Outstanding(s.guests, p)| <= s.limits.guestsPerProject
  {
    hide RowsOk, LiveOk, MountsOk, WorkspacesOk, QuotaOk, GuestsOk, ActivityOk, ClaimsOk, FencesOwned, TasksOk,
         Outstanding;
  }

  /** The standby clock has reached the present: an automatic pause is at least the idle time away. */
  predicate JustActive(s: World, k: Key) {
    k in s.rows && s.rows[k].lifecycle.standbyAfter > 0 && s.rows[k].cleanup == None ==>
      s.clock <= Max(s.rows[k].lastActiveAt, Recent(s, k))
  }

  lemma JustActiveDelays(s: World, k: Key)
    requires Inv(s) && JustActive(s, k)
    ensures !MayBegin(s, k, AutoPause)
  {
    hide Inv, HasGuests;
    if k in s.rows {
      RowFacts(s, k);
    }
  }

  lemma RecordFacts(s: World, k: Key)
    requires k in s.rows && Usable(s.rows[k])
    ensures var s' := Recorded(s, k, true);
            && s' == s.(rows := s'.rows, recent := s'.recent) && k in s'.rows && s'.rows[k].cleanup == s.rows[k].cleanup
            && s.clock <= s'.rows[k].lastActiveAt
  {
  }

  lemma AcquireFacts(s: World, k: Key, op: string)
    requires k in s.rows && Usable(s.rows[k]) && k !in s.fence && s.rows[k].cleanup == None
    ensures var s' := Acquires(s, k, op);
            && k in s'.rows && k !in s'.fence && s'.rows[k].cleanup == None && HasGuests(s', k)
            && (s'.rows[k].lifecycle.standbyAfter > 0 ==> s'.clock <= s'.rows[k].lastActiveAt)
  {
    hide Recorded;
    RecordFacts(s, k);
    assert GuestOp(k, op) in Acquires(s, k, op).guests;
  }

  lemma ReleaseFacts(s: World, k: Key, op: string, saved: bool)
    requires Inv(s) && GuestOp(k, op) in s.guests
    ensures k in s.rows && JustActive(Releases(s, k, op, saved), k)
  {
    hide Inv;
    GuestFacts(s, k, op);
    RowFacts(s, k);
  }

  class Service {
    const limits: Limits
    var clock: int
    var rows: map<Key, Row>
    var claims: map<ClaimKey, CreateClaim>
    var activeBackendMutations: set<Key>
    var guestOperations: set<GuestOp>
    var guestOperationsByProject: map<string, nat>
    var recentActivity: map<Key, int>
    // What goroutines are in the middle of, workspaces, the backend, and the records the proofs speak of.
    ghost var tasks: map<nat, Task>
    ghost var workspaces: map<Key, WorkspaceRow>
    ghost var workspaceFence: set<Key>
    ghost var workspaceTasks: map<nat, WorkspaceTask>
    ghost var live: map<Key, seq<string>>
    ghost var pending: set<Key>
    ghost var creates: seq<ClaimKey>
    ghost var answers: seq<Answer>
    ghost var lastGuest: map<Key, int>

    ghost function ToWorld(): World
      reads this
    {
      World(clock, limits, rows, claims, workspaces, activeBackendMutations, tasks, workspaceFence, workspaceTasks,
            guestOperations, guestOperationsByProject, recentActivity, live, pending, creates, answers, lastGuest)
    }

    ghost predicate Valid()
      reads this
    {
      Inv(ToWorld())
    }

    constructor (limits: Limits, clock: int)
      ensures Init(ToWorld()) && this.limits == limits && this.clock == clock && Valid()
    {
      hide Inv;
      this.limits, this.clock, rows, claims := limits, clock, map[], map[];
      activeBackendMutations, guestOperations, guestOperationsByProject, recentActivity := {}, {}, map[], map[];
      tasks, workspaces, workspaceFence, workspaceTasks := map[], map[], {}, map[];
      live, pending, creates, answers, lastGuest := map[], {}, [], [], map[];
      new;
      InitInv(ToWorld());
    }

    predicate HasActiveGuests(k: Key)
      reads this
      ensures HasActiveGuests(k) == HasGuests(ToWorld(), k)
    {
      exists g | g in guestOperations :: g.key == k
    }

    function LastActive(k: Key): int
      requires k in rows
      reads this
    {
      Max(rows[k].lastActiveAt, if k in recentActivity then recentActivity[k] else 0)
    }

    /** The guards in the order the code makes them. */
    method MayTransition(k: Key, change: Change) returns (ok: bool)
      ensures ok <==> MayBegin(ToWorld(), k, change)
    {
      if k !in rows || k in activeBackendMutations || HasActiveGuests(k) {
        return false;
      }
      var r := rows[k];
      match change
      case Pause => return r.state == Running;
      case Resume => return r.state == Standby;
      case Delete => return CanTransition(r.state, Deleting);
      case AutoPause =>
        if r.state != Running || r.lifecycle.standbyAfter == 0 {
          return false;
        }
        var lastActive := LastActive(k);
        return lastActive != 0 && clock >= StandbyEligibleAt(r.lifecycle, lastActive);
    }

    method Lock(k: Key, ghost tid: nat, ghost t: Task)
      requires t.key == k
      modifies this`activeBackendMutations, this`tasks
      ensures ToWorld() == Fence(old(ToWorld()), tid, t)
    {
      activeBackendMutations := activeBackendMutations + {k};
      tasks := tasks[tid := t];
    }

    method Unlock(k: Key, ghost tid: nat)
      requires tid in tasks && tasks[tid].key == k
      modifies this`activeBackendMutations, this`tasks
      ensures ToWorld() == Unfence(old(ToWorld()), tid)
    {
      activeBackendMutations := activeBackendMutations - {k};
      tasks := tasks - {tid};
    }

    method SaveRow(k: Key, r: Row, saved: bool)
      modifies this`rows
      ensures ToWorld() == Write(old(ToWorld()), k, r, saved)
    {
      if saved {
        rows := rows[k := r];
      }
    }

    method Touch(k: Key, used: bool)
      modifies this`recentActivity
      ensures ToWorld() == Touched(old(ToWorld()), k, used)
    {
      if used {
        recentActivity := recentActivity[k := clock];
      }
    }

    method Intend(k: Key, change: Change, ghost tid: nat)
      requires k in rows
      modifies this`rows, this`activeBackendMutations, this`tasks
      ensures ToWorld() == Begins(old(ToWorld()), tid, k, change, true)
    {
      hide Transitional, Write, Fence;
      var r := rows[k];
      if change == Delete {
        r := r.(cleanup := Some(Deleted));
      }
      r := r.(state := Transitional(change), failure := "", revision := r.revision + 1);
      SaveRow(k, r, true);
      Lock(k, tid, Changing(k, r, change));
    }

    /** Takes the intent of a pause, resume, automatic pause or deletion: guards, durable row, fence. The caller
        then holds the only fence on a sandbox no guest is on. */
    method BeginTransition(k: Key, change: Change, saved: bool, ghost tid: nat) returns (begun: bool)
      requires Valid() && tid !in tasks
      modifies this
      ensures begun <==> old(MayBegin(ToWorld(), k, change)) && saved
      ensures ToWorld() == if begun then Begins(old(ToWorld()), tid, k, change, true) else old(ToWorld())
      ensures Valid() && Stepped(old(ToWorld()), ToWorld())
      ensures begun ==> k in activeBackendMutations - old(activeBackendMutations) && !HasActiveGuests(k)
      ensures begun ==> k in old(rows) && k in rows && IntentRow(old(rows)[k], rows[k], change)
    {
      hide MayBegin, Inv, Next, HasGuests, IntentRow;
      begun := MayTransition(k, change);
      if !begun || !saved {
        return false;
      }
      BeginTaken(ToWorld(), tid, k, change);
      IdleFacts(k, change);
      BeginLeaves(ToWorld(), tid, k, change);
      Intend(k, change, tid);
      return true;
    }

    lemma IdleFacts(k: Key, change: Change)
      requires MayBegin(ToWorld(), k, change)
      ensures k in rows && k !in activeBackendMutations && !HasActiveGuests(k)
    {
    }

    method TransitionedRow(base: Row, change: Change, outcome: Outcome) returns (r: Row)
      requires base.state == Transitional(change)
      ensures r == Changed(base, change, outcome, clock) && SettledRow(base, r, change, outcome, clock)
    {
      r := base.(backendId := outcome.backendId, assignment := outcome.assignment, revision := base.revision + 1);
      if outcome.ok && CanTransition(base.state, Target(change)) {
        r := r.(state := Target(change), failure := "");
        if Target(change) == Running {
          r := r.(lastActiveAt := clock);
        }
      } else {
        r := r.(state := Unknown, failure := outcome.failure);
      }
    }

    /** Settles a transition with what its unlocked phase brought back. Its row is still the one it began with. */
    method FinishTransition(k: Key, base: Row, change: Change, outcome: Outcome, saved: bool, ghost tid: nat)
      returns (r: Row)
      requires Valid() && tid in tasks && tasks[tid] == Changing(k, base, change)
      modifies this
      ensures ToWorld() == ChangeSettles(old(ToWorld()), tid, outcome, saved)
      ensures old(ChangeEnabled(ToWorld(), ChangeReturns(tid, outcome, saved))) ==> Taken(old(ToWorld()), ToWorld())
      ensures old(k in rows && rows[k] == base) && k !in activeBackendMutations
      ensures SettledRow(base, r, change, outcome, clock)
              && (if saved then rows == old(rows)[k := r] else rows == old(rows))
    {
      hide Inv, Next, ChangeEnabled, Taken, Write, Unfence, Touched, ChangeSettles, Changed, Transitional, Target,
           SettledRow;
      ghost var s := ToWorld();
      ChangeFacts(s, tid);
      ChangeSettlesAs(s, tid, outcome, saved);
      ChangeTaken(s, tid, outcome, saved);
      r := TransitionedRow(base, change, outcome);
      Unlock(k, tid);
      SaveRow(k, r, saved);
      Touch(k, outcome.ok && Target(change) == Running);
    }

    method RecordActivity(k: Key, saved: bool)
      requires k in rows
      modifies this`rows, this`recentActivity
      ensures ToWorld() == Recorded(old(ToWorld()), k, saved)
    {
      if !saved {
        return;
      }
      var r := rows[k];
      if r.state == Running || r.state == Standby {
        r := r.(revision := r.revision + 1, lastActiveAt := if clock < r.lastActiveAt then r.lastActiveAt else clock);
      }
      rows, recentActivity := rows[k := r], recentActivity[k := r.lastActiveAt];
    }

    function CountFor(projectId: string): nat
      reads this
    {
      if projectId in guestOperationsByProject then guestOperationsByProject[projectId] else 0
    }

    method AddGuest(k: Key, op: string)
      modifies this`guestOperations, this`guestOperationsByProject, this`lastGuest
      ensures ToWorld() == GuestAdded(old(ToWorld()), k, op)
    {
      guestOperations := guestOperations + {GuestOp(k, op)};
      guestOperationsByProject := guestOperationsByProject[k.projectId := CountFor(k.projectId) + 1];
      lastGuest := lastGuest[k := clock];
    }

    method RemoveGuest(k: Key, op: string)
      modifies this`guestOperations, this`guestOperationsByProject, this`lastGuest
      ensures ToWorld() == GuestRemoved(old(ToWorld()), k, op)
    {
      guestOperations := guestOperations - {GuestOp(k, op)};
      var count := CountFor(k.projectId);
      if count <= 1 {
        guestOperationsByProject := guestOperationsByProject - {k.projectId};
      } else {
        guestOperationsByProject := guestOperationsByProject[k.projectId := count - 1];
      }
      lastGuest := lastGuest[k := clock];
    }

    method StartGuest(k: Key, op: string)
      requires k in rows
      modifies this`rows, this`recentActivity, this`guestOperations, this`guestOperationsByProject, this`lastGuest
      ensures ToWorld() == Acquires(old(ToWorld()), k, op)
    {
      hide Recorded, GuestAdded;
      if rows[k].lifecycle.standbyAfter > 0 {
        RecordActivity(k, true);
        recentActivity := recentActivity[k := clock];
      }
      AddGuest(k, op);
    }

    /** Admits a guest operation, whose start is durable before any work is handed out. The caller works on an
        unfenced sandbox that nobody has decided to remove, within its project's limit. */
    method AcquireGuestOperation(k: Key, op: string, saved: bool) returns (admitted: bool)
      requires Valid() && GuestOp(k, op) !in guestOperations
      modifies this
      ensures admitted <==> old(GuestEnabled(ToWorld(), Acquire(k, op, saved)))
      ensures ToWorld() == if admitted then Acquires(old(ToWorld()), k, op) else old(ToWorld())
      ensures Valid() && Stepped(old(ToWorld()), ToWorld())
      ensures admitted ==> k in old(rows) && clock < old(rows)[k].expiresAt && old(rows)[k].backendId != ""
      ensures admitted ==> old(rows[k].state == Running || (rows[k].state == Standby && rows[k].lifecycle.autoResume))
      ensures admitted ==> k in rows && k !in activeBackendMutations && rows[k].cleanup == None && HasActiveGuests(k)
      ensures admitted && rows[k].lifecycle.standbyAfter > 0 ==> clock <= rows[k].lastActiveAt
      ensures CountFor(k.projectId) == |Outstanding(guestOperations, k.projectId)| <= limits.guestsPerProject
    {
      hide Acquires, Inv, Next, HasGuests, Outstanding;
      ghost var s := ToWorld();
      CountIsExact(s, k.projectId);
      if k !in rows || k in activeBackendMutations || clock >= rows[k].expiresAt || !Usable(rows[k])
          || rows[k].backendId == "" {
        return false;
      }
      if CountFor(k.projectId) >= limits.guestsPerProject || (rows[k].lifecycle.standbyAfter > 0 && !saved) {
        return false;
      }
      AcquireTaken(s, k, op, saved);
      UsableIsOpen(s, k);
      AcquireFacts(s, k, op);
      StartGuest(k, op);
      CountIsExact(ToWorld(), k.projectId);
      return true;
    }

    /** Ends a guest operation. Whether or not the store takes the record, the sandbox counts as active now, and
        no automatic pause can begin before its idle time has passed again. */
    method ReleaseGuestOperation(k: Key, op: string, saved: bool)
      requires Valid() && GuestOp(k, op) in guestOperations
      modifies this
      ensures k in old(rows) && ToWorld() == Releases(old(ToWorld()), k, op, saved)
      ensures Valid() && Stepped(old(ToWorld()), ToWorld())
      ensures JustActive(ToWorld(), k) && !MayBegin(ToWorld(), k, AutoPause)
      ensures CountFor(k.projectId) == |Outstanding(guestOperations, k.projectId)|
    {
      hide Recorded, GuestRemoved, Inv, Next, HasGuests, Outstanding, JustActive, MayBegin;
      ReleaseFacts(ToWorld(), k, op, saved);
      ReleaseTaken(ToWorld(), k, op, saved);
      if rows[k].lifecycle.standbyAfter > 0 {
        recentActivity := recentActivity[k := clock];
        RecordActivity(k, saved);
      }
      RemoveGuest(k, op);
      JustActiveDelays(ToWorld(), k);
      CountIsExact(ToWorld(), k.projectId);
    }

    /** Decides that a sandbox has expired: durable intent before anything destructive. */
    method BeginExpiration(k: Key, saved: bool) returns (begun: bool)
      requires Valid()
      modifies this`rows
      ensures begun <==> old(LookEnabled(ToWorld(), Expire(k, saved))) && saved
      ensures ToWorld() == if begun then Write(old(ToWorld()), k, Expiring(old(rows)[k]), true) else old(ToWorld())
      ensures Valid() && Stepped(old(ToWorld()), ToWorld())
      ensures begun ==> k in old(rows) && clock >= old(rows)[k].expiresAt && old(rows)[k].cleanup == None
      ensures begun ==> k !in activeBackendMutations && k in rows && ExpiryRow(old(rows)[k], rows[k])
    {
      hide Inv, Next;
      if k !in rows || k in activeBackendMutations || Terminal(rows[k].state) || rows[k].cleanup.Some?
          || clock < rows[k].expiresAt {
        return false;
      }
      var r := rows[k];
      if (r.state != Deleting && !CanTransition(r.state, Deleting)) || !saved {
        return false;
      }
      ExpireTaken(ToWorld(), k);
      rows := rows[k := r.(state := Deleting, cleanup := Some(Expired), revision := r.revision + 1)];
      return true;
    }

    /** Takes the fence for a cleanup whose intent is already durable. */
    method BeginCleanup(k: Key, ghost tid: nat) returns (begun: bool)
      requires Valid() && tid !in tasks
      modifies this
      ensures begun <==> old(ChangeEnabled(ToWorld(), BeginCleaning(tid, k)))
      ensures ToWorld() == if begun then Fence(old(ToWorld()), tid, Cleaning(k, old(rows)[k])) else old(ToWorld())
      ensures Valid() && Stepped(old(ToWorld()), ToWorld())
      ensures begun ==>
              k in activeBackendMutations - old(activeBackendMutations) && !HasActiveGuests(k)
              && rows[k].cleanup.Some?
    {
      hide Inv, Next, HasGuests;
      if k !in rows || Terminal(rows[k].state) || rows[k].cleanup.None? || k in activeBackendMutations
          || HasActiveGuests(k) {
        return false;
      }
      CleaningBegins(ToWorld(), tid, k);
      Lock(k, tid, Cleaning(k, rows[k]));
      return true;
    }

    /** The row a cleanup leaves, or nothing when it would only repeat what the row says. */
    method CleanedUpRow(current: Row, outcome: Outcome) returns (r: Option<Row>)
      requires current.cleanup.Some?
      ensures r == if outcome.ok then Some(CleanedRow(current, outcome))
                   else
                     var seen := Learned(current, outcome).(state := Unknown, failure := outcome.failure);
                     if SameObservation(current, seen) then None else Some(seen.(revision := current.revision + 1))
    {
      var next := current.(backendId := outcome.backendId, assignment := outcome.assignment);
      if outcome.ok {
        return Some(next.(state := current.cleanup.value, failure := "", revision := current.revision + 1));
      }
      next := next.(state := Unknown, failure := outcome.failure);
      return if SameObservation(current, next) then None else Some(next.(revision := current.revision + 1));
    }

    /** The row is still there, in the same version, not terminal, and with the same cleanup intent. */
    predicate Untouched(k: Key, base: Row)
      reads this
    {
      k in rows && SameVersion(rows[k], base) && !Terminal(rows[k].state) && rows[k].cleanup == base.cleanup
    }

    method SettleCleanup(k: Key, base: Row, outcome: Outcome, saved: bool)
      requires base.cleanup.Some?
      modifies this`rows
      ensures old(!Untouched(k, base)) ==> ToWorld() == old(ToWorld())
      ensures old(k in rows && rows[k] == base && !Terminal(base.state)) ==>
                ToWorld() == CleanupWritten(old(ToWorld()), k, outcome, saved)
    {
      hide CleanedRow, Learned, SameObservation, Write;
      if !Untouched(k, base) {
        return;
      }
      var next := CleanedUpRow(rows[k], outcome);
      if next.Some? {
        SaveRow(k, next.value, saved);
      }
    }

    /** Settles a cleanup, provided the row is still the one the cleanup started from, which it always is. */
    method FinishCleanup(k: Key, base: Row, outcome: Outcome, saved: bool, ghost tid: nat)
      requires tid in tasks && tasks[tid] == Cleaning(k, base) && base.cleanup.Some?
      modifies this
      ensures old(!Untouched(k, base)) ==> ToWorld() == Unfence(old(ToWorld()), tid)
      ensures old(Valid()) ==>
              old(k in rows && rows[k] == base)
              && ToWorld() == CleaningSettles(old(ToWorld()), tid, outcome, saved)
      ensures old(Valid()) && saved ==> k in rows && CleanupRow(base, rows[k], outcome)
      ensures old(Valid() && ChangeEnabled(ToWorld(), CleaningReturns(tid, outcome, saved))) ==>
                Taken(old(ToWorld()), ToWorld())
    {
      hide Inv, Next, ChangeEnabled, CleaningSettles, Taken, CleanupRow;
      ghost var s := ToWorld();
      if Valid() {
        CleaningFacts(s, tid);
        CleaningLeaves(s, tid, outcome, saved);
        CleaningSettlesAs(s, tid, outcome, saved);
        if ChangeEnabled(s, CleaningReturns(tid, outcome, saved)) {
          CleaningTaken(s, tid, outcome, saved);
        }
      }
      Unlock(k, tid);
      SettleCleanup(k, base, outcome, saved);
    }

    method WriteObservation(k: Key, base: Row, outcome: Outcome, state: SandboxState, saved: bool, ghost tid: nat)
      returns (current: bool)
      requires tid in tasks && tasks[tid].Observing? && tasks[tid].key == k && tasks[tid].base == base
      modifies this`rows, this`tasks
      ensures current <==> old(Unmoved(ToWorld(), tid))
      ensures ToWorld() == if current then Seen(old(ToWorld()), tid, outcome, state, saved)
              else Dropped(old(ToWorld()), tid)
      ensures !current ==> rows == old(rows)
    {
      hide HasGuests, Terminal;
      current := k in rows && SameVersion(rows[k], base) && !Terminal(rows[k].state) && rows[k].cleanup.None?
                 && k !in activeBackendMutations && !HasActiveGuests(k);
      tasks := tasks - {tid};
      if !current {
        return;
      }
      var r := rows[k];
      var seen := r.(backendId := outcome.backendId, assignment := outcome.assignment, state := state, failure := "");
      if !SameObservation(r, seen) && saved {
        rows := rows[k := seen.(revision := r.revision + 1)];
      }
    }

    /** Writes what an observer saw, unless the row has moved on, is terminal, fenced or in use. What it writes over
        is the very row it looked at. */
    method CommitObservation(k: Key, base: Row, outcome: Outcome, state: SandboxState, saved: bool, ghost tid: nat)
      returns (current: bool)
      requires tid in tasks && tasks[tid].Observing? && tasks[tid].key == k && tasks[tid].base == base
      modifies this
      ensures current <==> old(Unmoved(ToWorld(), tid))
      ensures ToWorld() == if current then Seen(old(ToWorld()), tid, outcome, state, saved)
              else Dropped(old(ToWorld()), tid)
      ensures !current ==> rows == old(rows)
      ensures current && saved ==> k in old(rows) && k in rows && ObservedRow(old(rows)[k], rows[k], outcome, state, "")
      ensures old(Valid()) && current ==> old(k in rows && rows[k] == base && !Terminal(base.state))
      ensures old(Valid() && (Unmoved(ToWorld(), tid) ==>
                              ObserveEnabled(ToWorld(), ObserveSeen(tid, outcome, state, saved)))) ==>
                Taken(old(ToWorld()), ToWorld())
    {
      hide Inv, Next, Taken, ObserveEnabled, Seen, ObservedRow, Unmoved, Dropped;
      ghost var s := ToWorld();
      SeenWrites(s, tid, outcome, state, saved);
      ObservationFacts(s, tid, outcome, state, saved);
      current := WriteObservation(k, base, outcome, state, saved, tid);
    }
  }
}
