/** What the controller's sections leave in a sandbox's row and in memory, state by state, and what a caller can
    conclude from that. */
module ControllerOutcomes {
  import opened Records
  import opened Controller
  import opened ControllerSafety
  import opened ControllerRuns

  /** The row is otherwise as it was: identity, mounts, lifecycle and expiry never change. */
  predicate Otherwise(r: Row, r': Row) {
    r'.claim == r.claim && r'.mounts == r.mounts && r'.lifecycle == r.lifecycle && r'.expiresAt == r.expiresAt
  }

  /** Exactly one row may have changed. */
  ghost predicate OnlyRow(s: World, s': World, k: Key) {
    s'.rows.Keys == s.rows.Keys && forall j | j in s.rows && j != k :: s'.rows[j] == s.rows[j]
  }

  // ---------- Creating ----------

  /** The row a create starts with. */
  predicate NewRow(r: Row, step: CreationStep, clock: int)
    requires step.Create?
  {
    && r.claim == step.claim && r.mounts == step.mounts && r.lifecycle == step.lifecycle
    && r.expiresAt == step.expiresAt
    && r.state == Preparing && r.cleanup == None && r.backendId == "" && r.assignment == "" && r.failure == ""
    && r.revision == 1 && r.lastActiveAt == clock
  }

  lemma CreateLeaves(s: World, step: CreationStep)
    requires step.Create? && CreationEnabled(s, step)
    ensures var s', k := TakeCreation(s, step), Key(step.claim.projectId, step.id);
            && (!step.saved ==> s' == s)
            && (step.saved ==>
                  && s'.rows.Keys == s.rows.Keys + {k} && NewRow(s'.rows[k], step, s.clock)
                  && (forall j | j in s.rows :: s'.rows[j] == s.rows[j])
                  && k in s'.fence && k in s'.pending && s'.creates == s.creates + [step.claim]
                  && step.claim !in s.claims && step.claim in s'.claims
                  && s'.claims[step.claim] == CreateClaim(step.operationId, step.digest, k))
  {
    hide Active, ActiveIn, Mounted;
  }

  /** A create is let in exactly when it is new, below both limits, and every workspace it mounts is ready, mounted
      by no live sandbox, and asked for once. */
  lemma CreateExactly(s: World, step: CreationStep)
    requires step.Create?
    ensures CreationEnabled(s, step) <==>
              && step.tid !in s.tasks && Key(step.claim.projectId, step.id) !in s.rows && step.claim !in s.claims
              && |Active(s.rows)| < s.limits.total && |ActiveIn(s.rows, step.claim.projectId)| < s.limits.perProject
              && (forall i, j | 0 <= i < j < |step.mounts| :: step.mounts[i] != step.mounts[j])
              && (forall i | 0 <= i < |step.mounts| ::
                    var w := Key(step.claim.projectId, step.mounts[i]);
                    && w in s.workspaces && s.workspaces[w].state == WorkspaceReady
                    && (forall k | k in s.rows && k.projectId == w.projectId
                        && s.rows[k].state !in {Deleted, Expired, Failed} ::
                          step.mounts[i] !in s.rows[k].mounts))
  {
    forall w: Key ensures Mounted(s.rows, w) <==>
                          exists k | k in s.rows && k.projectId == w.projectId
                              && s.rows[k].state !in {Deleted, Expired, Failed} ::
                            w.id in s.rows[k].mounts
    {
    }
  }

  /** A create is let in only below both limits, and only with ready workspaces nobody has mounted. */
  lemma CreateNeeds(s: World, step: CreationStep)
    requires step.Create? && CreationEnabled(s, step)
    ensures |set k | k in s.rows && s.rows[k].state !in {Deleted, Expired, Failed}| < s.limits.total
    ensures |set k | k in s.rows && k.projectId == step.claim.projectId
            && s.rows[k].state !in {Deleted, Expired, Failed}|
            < s.limits.perProject
    ensures forall i | 0 <= i < |step.mounts| ::
              var w := Key(step.claim.projectId, step.mounts[i]);
              && w in s.workspaces && s.workspaces[w].state == WorkspaceReady
              && (forall k | k in s.rows && k.projectId == w.projectId
                  && s.rows[k].state !in {Deleted, Expired, Failed} ::
                    step.mounts[i] !in s.rows[k].mounts)
              && (forall j | 0 <= j < |step.mounts| && j != i :: step.mounts[j] != step.mounts[i])
  {
    assert Active(s.rows) == set k | k in s.rows && s.rows[k].state !in {Deleted, Expired, Failed};
    assert ActiveIn(s.rows, step.claim.projectId)
           == set k | k in s.rows && k.projectId == step.claim.projectId
           && s.rows[k].state !in {Deleted, Expired, Failed};
  }

  /** A retry is answered from its claim and changes nothing else. */
  lemma RetryLeaves(s: World, c: ClaimKey, digest: string)
    requires c in s.claims
    ensures var s' := TakeCreation(s, Retry(c, digest));
            && s' == s.(answers := s'.answers) && |s'.answers| == |s.answers| + 1 && s.answers <= s'.answers
            && s'.answers[|s.answers|] ==
               Answer(c, digest, if s.claims[c].digest == "" || s.claims[c].digest == digest
                                 then Some(s.claims[c].operationId) else None)
  {
  }

  /** How the backend's answer to a create ends up in the row. */
  lemma CreateReturnLeaves(s: World, tid: nat, result: CreateResult, saved: bool)
    requires tid in s.tasks && s.tasks[tid].Creating? && s.tasks[tid].key in s.rows
    ensures var t, s' := s.tasks[tid], CreateSettles(s, tid, result, saved);
            && OnlyRow(s, s', t.key)
            && (result.Created? ==>
                  && s'.rows == s.rows && s'.fence == s.fence && tid in s'.tasks
                  && s'.tasks[tid].Attaching? && s'.tasks[tid].key == t.key && s'.tasks[tid].base == t.base
                  && var n := s'.tasks[tid].next;
                     && Otherwise(t.base, n) && n.backendId == result.backendId && n.state == result.state
                     && n.failure == ""
                     && n.revision == t.base.revision + 1 && n.lastActiveAt == s.clock && n.cleanup == t.base.cleanup)
            && (!result.Created? ==> t.key !in s'.fence && tid !in s'.tasks && (!saved ==> s'.rows == s.rows))
            && (!result.Created? && saved ==>
                  && var r := s'.rows[t.key];
                     && Otherwise(t.base, r) && r.revision == t.base.revision + 1 && r.backendId == t.base.backendId
                     && r.cleanup == t.base.cleanup && r.lastActiveAt == t.base.lastActiveAt
                     && (if result == CapacityRefused then r.state == Failed
                         && r.failure == "backend_capacity_unavailable"
                         else r.state == Unknown && r.failure == "backend_create_unconfirmed"))
  {
  }

  /** The created sandbox is on record with its resource and its route, or as unknown if the route is in doubt. */
  lemma AttachReturnLeaves(s: World, tid: nat, outcome: Outcome, saved: bool)
    requires tid in s.tasks && s.tasks[tid].Attaching? && s.tasks[tid].key in s.rows
    ensures var t, s' := s.tasks[tid], AttachSettles(s, tid, outcome, saved);
            && OnlyRow(s, s', t.key) && t.key !in s'.fence && tid !in s'.tasks && (!saved ==> s'.rows == s.rows)
            && (saved ==>
                  && var r := s'.rows[t.key];
                     && r.backendId == t.next.backendId && r.assignment == outcome.assignment
                     && r.lastActiveAt == t.next.lastActiveAt && Otherwise(t.next, r) && r.cleanup == t.next.cleanup
                     && (if outcome.ok then r.state == t.next.state && r.failure == t.next.failure
                         else r.state == Unknown && r.failure == "node_route_attach_unconfirmed"))
  {
  }

  // ---------- Pause, resume, delete ----------

  /** The durable intent of a change. */
  predicate IntentRow(r: Row, r': Row, change: Change) {
    && Otherwise(r, r') && r'.revision == r.revision + 1 && r'.failure == ""
    && r'.backendId == r.backendId && r'.assignment == r.assignment && r'.lastActiveAt == r.lastActiveAt
    && match change
       case Pause => r.state == Running && r'.state == Pausing && r'.cleanup == r.cleanup
       case AutoPause => r.state == Running && r'.state == Pausing && r'.cleanup == r.cleanup
       case Resume => r.state == Standby && r'.state == Resuming && r'.cleanup == r.cleanup
       case Delete =>
         r.state in {Running, Standby, Unknown} && r'.state == Deleting && r'.cleanup == Some(Deleted)
  }

  /** Nobody is working on the sandbox: no fence, no guest operation. */
  predicate Undisturbed(s: World, k: Key) {
    k in s.rows && k !in s.fence && forall g | g in s.guests :: g.key != k
  }

  /** When a change may begin, in both directions. */
  lemma MayBeginExactly(s: World, k: Key, change: Change)
    ensures MayBegin(s, k, change) <==>
              && Undisturbed(s, k)
              && match change
                 case Pause => s.rows[k].state == Running
                 case Resume => s.rows[k].state == Standby
                 case Delete => s.rows[k].state in {Running, Standby, Unknown}
                 case AutoPause =>
                   var idle := (s.rows[k].lifecycle.standbyAfter + s.rows[k].lifecycle.standbyGrace) * 1_000_000_000;
                   var active := Max(s.rows[k].lastActiveAt, if k in s.recent then s.recent[k] else 0);
                   && s.rows[k].state == Running && s.rows[k].lifecycle.standbyAfter > 0 && active != 0
                   && s.clock >= active + idle
  {
  }

  lemma BeginLeaves(s: World, tid: nat, k: Key, change: Change)
    requires MayBegin(s, k, change)
    ensures var s' := Begins(s, tid, k, change, true);
            && OnlyRow(s, s', k) && IntentRow(s.rows[k], s'.rows[k], change) && k !in s.fence && k in s'.fence
            && tid in s'.tasks && s'.tasks[tid] == Changing(k, s'.rows[k], change)
  {
    hide HasGuests, StandbyEligibleAt;
  }

  /** An automatic pause waits for idle plus grace, in seconds, after the latest activity known. */
  lemma AutoPauseNeeds(s: World, k: Key)
    requires MayBegin(s, k, AutoPause)
    ensures var idle := (s.rows[k].lifecycle.standbyAfter + s.rows[k].lifecycle.standbyGrace) * 1_000_000_000;
            && s.rows[k].lifecycle.standbyAfter > 0 && s.rows[k].state == Running
            && s.clock >= s.rows[k].lastActiveAt + idle && (k in s.recent ==> s.clock >= s.recent[k] + idle)
  {
    hide HasGuests;
  }

  /** How a change ends. A pause leaves the sandbox parked, with its activity as it was; a resume leaves it running
      and active now; a deletion leaves it deleted; an unconfirmed change leaves it unknown. */
  predicate SettledRow(base: Row, r: Row, change: Change, outcome: Outcome, clock: int) {
    && Otherwise(base, r) && r.revision == base.revision + 1 && r.cleanup == base.cleanup
    && r.backendId == outcome.backendId && r.assignment == outcome.assignment
    && (if outcome.ok then
          && r.failure == ""
          && match change
             case Pause => r.state == Standby && r.lastActiveAt == base.lastActiveAt
             case AutoPause => r.state == Standby && r.lastActiveAt == base.lastActiveAt
             case Resume => r.state == Running && r.lastActiveAt == clock
             case Delete => r.state == Deleted && r.lastActiveAt == base.lastActiveAt
        else r.state == Unknown && r.failure == outcome.failure && r.lastActiveAt == base.lastActiveAt)
  }

  lemma SettledRowIs(base: Row, change: Change, outcome: Outcome, clock: int)
    ensures SettledRow(base, if outcome.ok then Completed(Learned(base, outcome), change, clock)
                             else UnknownRow(Learned(base, outcome), outcome.failure), change, outcome, clock)
  {
  }

  /** An owner gives its fence back and writes its row, if it can. */
  lemma OwnerWrites(s: World, tid: nat, r: Row, saved: bool)
    requires tid in s.tasks && s.tasks[tid].key in s.rows
    ensures var k, s' := s.tasks[tid].key, Write(Unfence(s, tid), s.tasks[tid].key, r, saved);
            && OnlyRow(s, s', k) && k !in s'.fence && tid !in s'.tasks && s'.recent == s.recent && s'.clock == s.clock
            && s'.guests == s.guests && s'.guestCount == s.guestCount && s'.limits == s.limits
            && (if saved then s'.rows[k] == r else s'.rows == s.rows)
  {
  }

  /** The same with an observation, which is written only if it is news. */
  lemma OwnerObserves(s: World, tid: nat, r: Row, saved: bool)
    requires tid in s.tasks && s.tasks[tid].key in s.rows
    ensures var k := s.tasks[tid].key;
            var s', same := Observed(Unfence(s, tid), k, r, saved), SameObservation(s.rows[k], r);
            && OnlyRow(s, s', k) && k !in s'.fence && tid !in s'.tasks
            && (if saved && !same then s'.rows[k] == r.(revision := s.rows[k].revision + 1) else s'.rows == s.rows)
  {
    hide SameObservation;
  }

  lemma ObserverWrites(s: World, tid: nat, r: Row, saved: bool)
    requires tid in s.tasks && s.tasks[tid].key in s.rows
    ensures var k := s.tasks[tid].key;
            var s', same := Observed(Dropped(s, tid), k, r, saved), SameObservation(s.rows[k], r);
            && OnlyRow(s, s', k) && tid !in s'.tasks
            && (if saved && !same then s'.rows[k] == r.(revision := s.rows[k].revision + 1) else s'.rows == s.rows)
  {
    hide SameObservation;
  }

  lemma ChangeLeaves(s: World, tid: nat, outcome: Outcome, saved: bool)
    requires tid in s.tasks && s.tasks[tid].Changing? && s.tasks[tid].key in s.rows
    ensures var t, s' := s.tasks[tid], ChangeSettles(s, tid, outcome, saved);
            && OnlyRow(s, s', t.key) && t.key !in s'.fence && tid !in s'.tasks
            && (if saved then SettledRow(t.base, s'.rows[t.key], t.change, outcome, s.clock) else s'.rows == s.rows)
            && (if outcome.ok && t.change == Resume then t.key in s'.recent && s'.recent[t.key] == s.clock
                else s'.recent == s.recent)
            && s'.guests == s.guests && s'.guestCount == s.guestCount && s'.clock == s.clock && s'.limits == s.limits
  {
    hide Write, Unfence, Learned, Completed, UnknownRow, SettledRow;
    var t := s.tasks[tid];
    SettledRowIs(t.base, t.change, outcome, s.clock);
    var r := Learned(t.base, outcome);
    OwnerWrites(s, tid, if outcome.ok then Completed(r, t.change, s.clock) else UnknownRow(r, outcome.failure), saved);
  }

  /** What it takes to start a guest operation: a running sandbox, or a parked one that resumes by itself. */
  lemma AcquireNeeds(s: World, k: Key, op: string, saved: bool)
    ensures GuestEnabled(s, Acquire(k, op, saved)) <==>
              && k in s.rows && k !in s.fence && s.clock < s.rows[k].expiresAt && s.rows[k].backendId != ""
              && (s.rows[k].state == Running || (s.rows[k].state == Standby && s.rows[k].lifecycle.autoResume))
              && (if k.projectId in s.guestCount then s.guestCount[k.projectId] else 0) < s.limits.guestsPerProject
              && GuestOp(k, op) !in s.guests && (s.rows[k].lifecycle.standbyAfter > 0 ==> saved)
  {
  }

  /** Straight after a successful pause, a sandbox that does not resume by itself takes no guest. */
  lemma PausedTakesNoGuest(s: World, tid: nat, outcome: Outcome, op: string, saved: bool)
    requires tid in s.tasks && s.tasks[tid].Changing? && s.tasks[tid].change in {Pause, AutoPause} && outcome.ok
    requires s.tasks[tid].key in s.rows && !s.tasks[tid].base.lifecycle.autoResume
    ensures !GuestEnabled(ChangeSettles(s, tid, outcome, true), Acquire(s.tasks[tid].key, op, saved))
  {
    hide ChangeSettles;
    ChangeLeaves(s, tid, outcome, true);
    AcquireNeeds(ChangeSettles(s, tid, outcome, true), s.tasks[tid].key, op, saved);
  }

  /** After a successful resume it does, if nothing else stands in the way. */
  lemma ResumedTakesGuests(s: World, tid: nat, outcome: Outcome, op: string)
    requires tid in s.tasks && s.tasks[tid].Changing? && s.tasks[tid].change == Resume && outcome.ok
    requires s.tasks[tid].key in s.rows && s.clock < s.tasks[tid].base.expiresAt && outcome.backendId != ""
    requires GuestOp(s.tasks[tid].key, op) !in s.guests
    requires Count(s, s.tasks[tid].key.projectId) < s.limits.guestsPerProject
    ensures GuestEnabled(ChangeSettles(s, tid, outcome, true), Acquire(s.tasks[tid].key, op, true))
  {
    hide ChangeSettles;
    var s' := ChangeSettles(s, tid, outcome, true);
    ChangeLeaves(s, tid, outcome, true);
    AcquireNeeds(s', s.tasks[tid].key, op, true);
  }

  // ---------- Guests ----------

  /** The start of a guest operation is on record, durably where standby is on. */
  lemma AcquireLeaves(s: World, k: Key, op: string)
    requires k in s.rows && (s.rows[k].state == Running || s.rows[k].state == Standby)
    ensures var s' := Acquires(s, k, op);
            && OnlyRow(s, s', k) && s'.guests == s.guests + {GuestOp(k, op)} && s'.fence == s.fence
            && s'.rows[k].state == s.rows[k].state && s'.rows[k].cleanup == s.rows[k].cleanup
            && (if s.rows[k].lifecycle.standbyAfter > 0 then
                  && s'.rows[k].lastActiveAt == Max(s.clock, s.rows[k].lastActiveAt) && k in s'.recent
                  && s'.recent[k] == s.clock
                else s'.rows == s.rows && s'.recent == s.recent)
  {
  }

  /** Its end is too: if the record is saved, in the row; in any case in memory, unless the row has moved past it. */
  lemma ReleaseLeaves(s: World, k: Key, op: string, saved: bool)
    requires k in s.rows
    ensures var s' := Releases(s, k, op, saved);
            && OnlyRow(s, s', k) && s'.guests == s.guests - {GuestOp(k, op)} && s'.fence == s.fence
            && s'.rows[k].state == s.rows[k].state && s'.rows[k].cleanup == s.rows[k].cleanup
            && (s.rows[k].lifecycle.standbyAfter == 0 ==> s'.rows == s.rows && s'.recent == s.recent)
            && (s.rows[k].lifecycle.standbyAfter > 0 && !saved ==>
                  s'.rows == s.rows && k in s'.recent && s'.recent[k] == s.clock)
            && (s.rows[k].lifecycle.standbyAfter > 0 && saved ==>
                k in s'.recent
                && s'.recent[k] == s'.rows[k].lastActiveAt)
            && (s.rows[k].lifecycle.standbyAfter > 0 && saved && s.rows[k].state in {Running, Standby} ==>
                  s'.rows[k].lastActiveAt == Max(s.clock, s.rows[k].lastActiveAt))
  {
  }

  /** A sandbox that was never active gets its first time on record, so that its idle time can start. */
  lemma BaselineLeaves(s: World, k: Key)
    requires GuestEnabled(s, Baseline(k, true)) && k in s.rows
    ensures var s' := Recorded(s, k, true);
            && s.rows[k].state == Running && s.rows[k].lifecycle.standbyAfter > 0 && Undisturbed(s, k)
            && OnlyRow(s, s', k) && s'.rows[k].lastActiveAt == Max(s.clock, s.rows[k].lastActiveAt)
            && k in s'.recent && s'.recent[k] == s'.rows[k].lastActiveAt && s'.rows[k].state == Running
  {
  }

  // ---------- Cleanup ----------

  /** A confirmed cleanup ends in the state it was decided for; an unconfirmed one is unknown, and on record only if
      that is news. */
  predicate CleanupRow(base: Row, r: Row, outcome: Outcome) {
    && base.cleanup.Some? && Otherwise(base, r) && r.cleanup == base.cleanup && r.lastActiveAt == base.lastActiveAt
    && r.backendId == outcome.backendId && r.assignment == outcome.assignment
    && (if outcome.ok then r.state == base.cleanup.value && r.failure == "" && r.revision == base.revision + 1
        else
          && r.state == Unknown && r.failure == outcome.failure
          && r.revision == if base.state == Unknown && base.failure == outcome.failure
                              && base.backendId == outcome.backendId
                              && base.assignment == outcome.assignment then base.revision else base.revision + 1)
  }

  /** When a cleanup may begin: its intent is durable, it is not done, and nobody is working on the sandbox. */
  lemma CleaningExactly(s: World, tid: nat, k: Key)
    requires tid !in s.tasks
    ensures ChangeEnabled(s, BeginCleaning(tid, k)) <==>
              && Undisturbed(s, k) && s.rows[k].cleanup.Some? && s.rows[k].state !in {Deleted, Expired, Failed}
  {
  }

  lemma CleaningLeaves(s: World, tid: nat, outcome: Outcome, saved: bool)
    requires tid in s.tasks && s.tasks[tid].Cleaning? && s.tasks[tid].key in s.rows
    requires s.rows[s.tasks[tid].key].cleanup.Some?
    ensures var k, s' := s.tasks[tid].key, CleaningSettles(s, tid, outcome, saved);
            && OnlyRow(s, s', k) && k !in s'.fence && tid !in s'.tasks
            && (if saved then CleanupRow(s.rows[k], s'.rows[k], outcome) else s'.rows == s.rows)
  {
    hide Write, Unfence, Observed;
    var r := s.rows[s.tasks[tid].key];
    OwnerWrites(s, tid, CleanedRow(r, outcome), saved);
    OwnerObserves(s, tid, Learned(r, outcome).(state := Unknown, failure := outcome.failure), saved);
  }

  /** Expiry is decided at its time, of a sandbox without a fence that nobody is removing; guests do not hold it up. */
  lemma ExpireExactly(s: World, k: Key, saved: bool)
    ensures LookEnabled(s, Expire(k, saved)) <==>
              && k in s.rows && k !in s.fence && s.clock >= s.rows[k].expiresAt && s.rows[k].cleanup == None
              && s.rows[k].state in {Running, Standby, Unknown, Deleting}
  {
  }

  lemma ExpireLeaves(s: World, k: Key, saved: bool)
    requires LookEnabled(s, Expire(k, saved))
    ensures var s' := TakeLook(s, Expire(k, saved));
            && OnlyRow(s, s', k) && (!saved ==> s' == s)
            && (saved ==> ExpiryRow(s.rows[k], s'.rows[k]))
  {
  }

  predicate ExpiryRow(r: Row, r': Row) {
    && Otherwise(r, r') && r'.state == Deleting && r'.cleanup == Some(Expired) && r'.revision == r.revision + 1
    && r'.backendId == r.backendId && r'.assignment == r.assignment && r'.lastActiveAt == r.lastActiveAt
    && r'.failure == r.failure
  }

  // ---------- Looking and observing ----------

  /** What reading a sandbox writes: a missing resource fails it, an unanswered question makes it unknown, and a state
      the backend reports is taken over. */
  lemma LookLeaves(s: World, step: LookStep)
    requires LookEnabled(s, step) && (step.LookMissing? || step.LookUnknown? || step.LookSeen?)
    ensures var s', k := TakeLook(s, step), step.key;
            && k in s.rows && k !in s.fence && !HasGuests(s, k) && s.rows[k].cleanup == None && OnlyRow(s, s', k)
            && (!step.saved ==> s' == s)
            && (step.saved ==>
                  && var r, r' := s.rows[k], s'.rows[k];
                     && Otherwise(r, r') && r'.revision == r.revision + 1 && r'.cleanup == None
                     && r'.backendId == r.backendId && r'.assignment == r.assignment
                     && r'.lastActiveAt == r.lastActiveAt
                     && match step
                        case LookMissing(_, _) => r'.state == Failed && r'.failure == "backend_resource_missing"
                        case LookUnknown(_, failure, _) => r'.state == Unknown && r'.failure == failure
                        case LookSeen(_, state, _) => r'.state == state && r'.failure == ""
                        case _ => true)
  {
    hide HasGuests;
  }

  /** An observation takes over what was seen and nothing else, and does not touch a row that already says so. */
  predicate ObservedRow(r: Row, r': Row, outcome: Outcome, state: SandboxState, failure: string) {
    && Otherwise(r, r') && r'.cleanup == r.cleanup && r'.lastActiveAt == r.lastActiveAt
    && r'.backendId == outcome.backendId && r'.assignment == outcome.assignment && r'.state == state
    && r'.failure == failure
    && r'.revision == if r.backendId == outcome.backendId && r.assignment == outcome.assignment && r.state == state
                         && r.failure == failure then r.revision else r.revision + 1
  }

  /** An observer writes only over the revision it looked at, with nobody working on the sandbox. */
  predicate Clear(s: World, tid: nat)
    requires tid in s.tasks
  {
    var k := s.tasks[tid].key;
    Undisturbed(s, k) && s.rows[k].cleanup == None && s.rows[k].state !in {Deleted, Expired, Failed}
    && s.rows[k].revision == s.tasks[tid].base.revision
  }

  lemma UnmovedExactly(s: World, tid: nat)
    requires tid in s.tasks && s.tasks[tid].Observing?
    ensures Unmoved(s, tid) <==>
              && Clear(s, tid) && s.rows[s.tasks[tid].key].backendId == s.tasks[tid].base.backendId
              && s.rows[s.tasks[tid].key].assignment == s.tasks[tid].base.assignment
  {
  }

  /** An observer starts on a sandbox that is not due, not done, not being removed, and left alone. */
  lemma ObserveExactly(s: World, tid: nat, k: Key)
    requires tid !in s.tasks
    ensures ObserveEnabled(s, Observe(tid, k)) <==>
              && Undisturbed(s, k) && s.rows[k].cleanup == None && s.rows[k].state !in {Deleted, Expired, Failed}
              && s.clock < s.rows[k].expiresAt
  {
  }

  lemma ObserveSeenLeaves(s: World, tid: nat, outcome: Outcome, state: SandboxState, saved: bool)
    requires ObserveEnabled(s, ObserveSeen(tid, outcome, state, saved)) && s.tasks[tid].key in s.rows
    ensures var k := s.tasks[tid].key;
            var s' := Observed(Dropped(s, tid), k, Learned(s.rows[k], outcome).(state := state, failure := ""), saved);
            && Clear(s, tid) && OnlyRow(s, s', k) && tid !in s'.tasks
            && (if saved then ObservedRow(s.rows[k], s'.rows[k], outcome, state, "") else s'.rows == s.rows)
  {
    hide Observed, Dropped;
    ObserverWrites(s, tid, Learned(s.rows[s.tasks[tid].key], outcome).(state := state, failure := ""), saved);
  }

  lemma ObserveUnknownLeaves(s: World, tid: nat, outcome: Outcome, saved: bool)
    requires ObserveEnabled(s, ObserveUnknown(tid, outcome, saved)) && s.tasks[tid].key in s.rows
    ensures var k := s.tasks[tid].key;
            var s' := Observed(Dropped(s, tid), k,
                               Learned(s.rows[k], outcome).(state := Unknown, failure := outcome.failure), saved);
            && Clear(s, tid) && OnlyRow(s, s', k) && tid !in s'.tasks
            && (if saved then ObservedRow(s.rows[k], s'.rows[k], outcome, Unknown, outcome.failure)
                else s'.rows == s.rows)
  {
    hide Observed, Dropped;
    ObserverWrites(s, tid, Learned(s.rows[s.tasks[tid].key], outcome).(state := Unknown, failure := outcome.failure),
                   saved);
  }

  /** A resource that stayed away, looked for under the fence, fails its sandbox. */
  lemma ForgettingLeaves(s: World, tid: nat, outcome: Outcome, saved: bool)
    requires tid in s.tasks && s.tasks[tid].Forgetting? && s.tasks[tid].key in s.rows
    ensures var k, s' := s.tasks[tid].key, ForgettingSettles(s, tid, outcome, saved);
            && OnlyRow(s, s', k) && k !in s'.fence && tid !in s'.tasks && (!saved ==> s'.rows == s.rows)
            && (saved && outcome.ok ==>
                  && s'.rows[k].state == Failed && s'.rows[k].failure == "backend_resource_missing"
                  && s'.rows[k].assignment == outcome.assignment && s'.rows[k].revision == s.rows[k].revision + 1)
            && (saved && !outcome.ok ==>
                  s'.rows[k].state == Unknown && s'.rows[k].failure == outcome.failure
                  && s'.rows[k].assignment == outcome.assignment)
  {
    hide Write, Unfence, Observed;
    var routed := s.rows[s.tasks[tid].key].(assignment := outcome.assignment);
    OwnerWrites(s, tid, MissingRow(routed), saved);
    OwnerObserves(s, tid, routed.(state := Unknown, failure := outcome.failure), saved);
  }

  /** A read that finds its sandbox to be removed cleans it up on the spot, and records the outcome. */
  lemma LookCleanupLeaves(s: World, k: Key, outcome: Outcome, saved: bool)
    requires LookEnabled(s, LookCleanup(k, outcome, saved))
    ensures var s' := TakeLook(s, LookCleanup(k, outcome, saved));
            && k in s.rows && k !in s.fence && s.rows[k].cleanup.Some? && s.rows[k].state !in {Deleted, Expired, Failed}
            && OnlyRow(s, s', k) && (!saved ==> s' == s)
            && (saved ==>
                  && var r, r' := s.rows[k], s'.rows[k];
                     && Otherwise(r, r') && r'.cleanup == r.cleanup && r'.revision == r.revision + 1
                     && r'.backendId == outcome.backendId && r'.assignment == outcome.assignment
                     && r'.lastActiveAt == r.lastActiveAt
                     && (if outcome.ok then r'.state == r.cleanup.value && r'.failure == ""
                         else r'.state == Unknown && r'.failure == outcome.failure))
  {
  }

  /** A route repair takes over what was seen and the route it got, or leaves the sandbox unknown. */
  lemma RoutingLeaves(s: World, tid: nat, outcome: Outcome, saved: bool)
    requires tid in s.tasks && s.tasks[tid].Routing? && s.tasks[tid].key in s.rows
    requires s.rows[s.tasks[tid].key] == s.tasks[tid].base
    ensures var t, s' := s.tasks[tid], RoutingSettles(s, tid, outcome, saved);
            && OnlyRow(s, s', t.key) && t.key !in s'.fence && tid !in s'.tasks && (!saved ==> s'.rows == s.rows)
            && (saved ==>
                  && var r := s'.rows[t.key];
                     && r.assignment == outcome.assignment
                     && (if outcome.ok then r.state == t.next.state && r.failure == t.next.failure
                         && r.backendId == t.next.backendId
                         else r.state == Unknown && r.failure == outcome.failure && r.backendId == t.next.backendId))
  {
    hide Unfence, Observed;
    var routed := s.tasks[tid].next.(assignment := outcome.assignment);
    OwnerObserves(s, tid, if outcome.ok then routed else routed.(state := Unknown, failure := outcome.failure), saved);
  }

  /** A repair starts under the fence, with the row as it is and what was just seen. */
  lemma BeginRoutingLeaves(s: World, tid: nat, outcome: Outcome, state: SandboxState)
    requires ObserveEnabled(s, BeginRouting(tid, outcome, state)) && s.tasks[tid].key in s.rows && TasksHaveRows(s)
    ensures var k, s' := s.tasks[tid].key, TakeObserve(s, BeginRouting(tid, outcome, state));
            && s'.rows == s.rows && k !in s.fence && s'.fence == s.fence + {k} && tid in s'.tasks
            && s'.tasks[tid].Routing?
            && s'.tasks[tid].base == s.rows[k]
            && s'.tasks[tid].next == s.rows[k].(backendId := outcome.backendId, assignment := outcome.assignment,
                                                state := state, failure := "")
  {
    hide TasksHaveRows, HasGuests;
  }

  // ---------- Crashes and checkpoints ----------

  /** A crash forgets what was in memory and keeps what was durable, and what the backend has or may still do. */
  lemma CrashLeaves(s: World)
    ensures var s' := Crashed(s);
            && s'.rows == s.rows && s'.claims == s.claims && s'.workspaces == s.workspaces && s'.live == s.live
            && s'.pending == s.pending && s'.creates == s.creates && s'.answers == s.answers && s'.clock == s.clock
            && s'.limits == s.limits && s'.fence == {} && s'.tasks == map[] && s'.guests == {} && s'.guestCount == map[]
            && s'.recent == map[] && s'.workspaceFence == {} && s'.workspaceTasks == map[]
  {
  }

  /** A checkpoint is taken of a running sandbox nobody else is working on, and leaves its row as it was. */
  lemma CheckpointExactly(s: World, tid: nat, k: Key)
    requires tid !in s.tasks && TasksHaveRows(s)
    ensures ChangeEnabled(s, BeginCheckpoint(tid, k)) <==> Undisturbed(s, k) && s.rows[k].state == Running
    ensures ChangeEnabled(s, BeginCheckpoint(tid, k)) ==>
              var s' := TakeChange(s, BeginCheckpoint(tid, k)); s'.rows == s.rows && s'.fence == s.fence + {k}
  {
    hide TasksHaveRows;
  }

  // ---------- Workspaces ----------

  /** A workspace that is being removed ends deleted on confirmation or absence; any other ends ready on confirmation
      and failed on absence; in doubt both are unknown. */
  lemma WorkspaceLeaves(w: WorkspaceRow, verdict: WorkspaceOutcome, clock: int)
    ensures var w' := WorkspaceSettled(w, verdict, clock);
            var removing := w.cleanup || w.state == WorkspaceDeleting;
            && w'.cleanup == w.cleanup && w'.updatedAt == clock
            && (verdict.Unclear? ==>
                w'.state == WorkspaceUnknown && w'.failure == verdict.failure
                && w'.backendId == w.backendId)
            && (!verdict.Unclear? && removing ==>
                  w'.state == WorkspaceDeleted && w'.failure == "" && w'.backendId == w.backendId)
            && (verdict.Confirmed? && !removing ==>
                  w'.state == WorkspaceReady && w'.failure == "" && w'.backendId == verdict.backendId)
            && (verdict.Absent? && !removing ==>
                  w'.state == WorkspaceFailed && w'.failure == "backend_workspace_missing"
                  && w'.backendId == w.backendId)
  {
  }

  /** A new workspace starts out as being prepared, without cleanup intent, and takes the backend's word for the
      rest. */
  lemma CreateWorkspaceLeaves(s: World, k: Key, verdict: WorkspaceOutcome, saved: bool, settled: bool)
    requires SpaceEnabled(s, CreateWorkspace(k, verdict, saved, settled))
    ensures var s' := TakeSpace(s, CreateWorkspace(k, verdict, saved, settled));
            && k !in s.workspaces && (!saved ==> s' == s)
            && (saved ==> s'.workspaces.Keys == s.workspaces.Keys + {k} && !s'.workspaces[k].cleanup)
            && (saved && !settled ==> s'.workspaces[k].state == WorkspacePreparing)
            && (saved && settled ==>
                  s'.workspaces[k].state == if verdict.Confirmed? then WorkspaceReady else WorkspaceUnknown)
            && (saved && settled && verdict.Confirmed? ==> s'.workspaces[k].backendId == verdict.backendId)
            && (forall j | j in s.workspaces :: j in s'.workspaces && s'.workspaces[j] == s.workspaces[j])
  {
  }

  /** Reconciliation writes a workspace only if it is still the row it looked at and not terminal. */
  lemma WorkspaceReturnsLeaves(s: World, tid: nat, verdict: WorkspaceOutcome, saved: bool)
    requires tid in s.workspaceTasks
    ensures var t, s' := s.workspaceTasks[tid], WorkspaceSettles(s, tid, verdict, saved);
            var current := t.key in s.workspaces && s.workspaces[t.key] == t.base
                           && t.base.state != WorkspaceDeleted && t.base.state != WorkspaceFailed;
            && t.key !in s'.workspaceFence && tid !in s'.workspaceTasks
            && (current && saved ==>
                  s'.workspaces == s.workspaces[t.key := WorkspaceSettled(t.base, verdict, s.clock)])
            && (!current || !saved ==> s'.workspaces == s.workspaces)
  {
    hide WorkspaceSettled, PutWorkspace;
    var t := s.workspaceTasks[tid];
    PutChanges(s.(workspaceFence := s.workspaceFence - {t.key}, workspaceTasks := s.workspaceTasks - {tid}), t.key,
               WorkspaceSettled(t.base, verdict, s.clock), saved);
  }

  lemma PutChanges(s: World, k: Key, w: WorkspaceRow, saved: bool)
    ensures var s' := PutWorkspace(s, k, w, saved);
            && s'.workspaceFence == s.workspaceFence && s'.workspaceTasks == s.workspaceTasks
            && s'.workspaces == (if saved then s.workspaces[k := w] else s.workspaces)
  {
  }

  /** A deletion is decided only of a workspace no live sandbox mounts, and on record before the backend is asked. */
  lemma DeleteWorkspaceLeaves(s: World, k: Key, verdict: WorkspaceOutcome, saved: bool, settled: bool)
    requires SpaceEnabled(s, DeleteWorkspace(k, verdict, saved, settled))
    ensures var s' := TakeSpace(s, DeleteWorkspace(k, verdict, saved, settled));
            && (forall j | j in s.rows && j.projectId == k.projectId
                && s.rows[j].state !in {Deleted, Expired, Failed} ::
                  k.id !in s.rows[j].mounts)
            && (!saved ==> s' == s)
            && (saved ==> k in s'.workspaces && s'.workspaces[k].cleanup)
            && (saved && !settled ==> s'.workspaces[k].state == WorkspaceDeleting)
            && (saved && settled ==> s'.workspaces[k].state == if verdict.Unclear? then WorkspaceUnknown
                else WorkspaceDeleted)
            && (forall j | j in s.workspaces && j != k :: j in s'.workspaces && s'.workspaces[j] == s.workspaces[j])
  {
  }
}
