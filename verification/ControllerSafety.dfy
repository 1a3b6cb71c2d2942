/** What every step of the controller keeps. */
module ControllerSafety {
  import opened Records
  import opened Controller

  // ---------- The invariant ----------

  predicate RowOk(r: Row, clock: int) {
    && r.revision >= 1 && r.lastActiveAt <= clock
    && (r.cleanup.Some? ==> r.cleanup.value in {Deleted, Expired} && r.state in {Deleting, Unknown, r.cleanup.value})
    && (r.cleanup.None? ==> r.state != Deleted && r.state != Expired)
  }

  predicate SameFixed(r: Row, r': Row) {
    r'.claim == r.claim && r'.mounts == r.mounts && r'.lifecycle == r.lifecycle && r'.expiresAt == r.expiresAt
  }

  /** What a durable write may do to a row: never to a terminal one, always to a higher revision; cleanup
      once decided stays decided and ends only in the target it had. */
  predicate Legal(r: Row, r': Row, clock: int) {
    && SameFixed(r, r') && r'.revision > r.revision && !Terminal(r.state) && RowOk(r', clock)
    && r.lastActiveAt <= r'.lastActiveAt
    && (r.cleanup.Some? ==> r'.cleanup.Some? && (Terminal(r'.state) ==> r'.cleanup == r.cleanup))
  }

  /** `r'` is `r` or a later version of it. */
  predicate Later(r: Row, r': Row) {
    || r' == r
    || (SameFixed(r, r') && r'.revision > r.revision && !Terminal(r.state) && r.lastActiveAt <= r'.lastActiveAt
        && (r.cleanup.Some? ==> r'.cleanup.Some?))
  }

  ghost predicate RowsOk(s: World) {
    forall k | k in s.rows :: RowOk(s.rows[k], s.clock)
  }

  /** What a task knows besides its row. */
  predicate PayloadOk(t: Task, live: map<Key, seq<string>>, pending: set<Key>, clock: int) {
    match t
    case Creating(_, base) => base.cleanup == None && base.backendId == ""
    case Attaching(k, base, next) =>
      base.cleanup == None && Legal(base, next, clock) && next.cleanup == None && !Terminal(next.state) && k !in pending
    case Changing(_, base, change) =>
      base.state == Transitional(change) && base.cleanup == (if change == Delete then Some(Deleted) else None)
    case Checkpointing(_, _) => true
    case Cleaning(_, base) => base.cleanup.Some?
    case Forgetting(k, base) => base.cleanup == None && k !in live && k !in pending
    case Routing(k, base, next) =>
      && base.cleanup == None && (next.backendId != "" ==> k !in pending) && !Terminal(next.state)
      && next.state != Deleted
      && next == base.(backendId := next.backendId, assignment := next.assignment, state := next.state,
                       failure := next.failure)
    case Observing(k, base, absent) =>
      (absent ==> k !in live && k !in pending) && (base.backendId != "" ==> k !in pending)
  }

  /** A fence owner's row is exactly the row it started from, and no guest is on it; an observer's row may
      have moved on. */
  ghost predicate TaskOk(s: World, t: Task) {
    && t.key in s.rows && PayloadOk(t, s.live, s.pending, s.clock)
    && (if Fenced(t) then t.key in s.fence && s.rows[t.key] == t.base && !Terminal(t.base.state) && !HasGuests(s, t.key)
        else Later(t.base, s.rows[t.key]))
  }

  ghost predicate TasksOk(s: World) {
    forall tid | tid in s.tasks :: TaskOk(s, s.tasks[tid])
  }

  predicate Exclusive(t: Task, u: Task) {
    Fenced(t) && Fenced(u) ==> t.key != u.key
  }

  ghost predicate Owned(tasks: map<nat, Task>, k: Key) {
    exists tid :: tid in tasks && Fenced(tasks[tid]) && tasks[tid].key == k
  }

  lemma OwnedKept(tasks: map<nat, Task>, tasks': map<nat, Task>, k: Key)
    requires Owned(tasks, k)
    requires forall tid | tid in tasks && Fenced(tasks[tid]) && tasks[tid].key == k ::
             tid in tasks'
             && Fenced(tasks'[tid]) && tasks'[tid].key == k
    ensures Owned(tasks', k)
  {
    var tid :| tid in tasks && Fenced(tasks[tid]) && tasks[tid].key == k;
    assert tid in tasks';
  }

  /** Every fence has exactly one owner. */
  ghost predicate FencesOwned(s: World) {
    && (forall k | k in s.fence :: Owned(s.tasks, k))
    && (forall tid, uid | tid in s.tasks && uid in s.tasks && tid != uid :: Exclusive(s.tasks[tid], s.tasks[uid]))
  }

  /** What the backend runs, or may yet start, belongs to a non-terminal row with the same mounts; a create that
      may still land has not been named to anyone. */
  ghost predicate LiveOk(s: World) {
    && (forall k | k in s.live :: k in s.rows && !Terminal(s.rows[k].state) && s.live[k] == s.rows[k].mounts)
    && (forall k | k in s.pending :: k in s.rows && !Terminal(s.rows[k].state) && s.rows[k].backendId == "")
  }

  predicate NoRepeat<T(==)>(s: seq<T>) {
    forall i, j | 0 <= i < j < |s| :: s[i] != s[j]
  }

  predicate Mounts(rows: map<Key, Row>, k: Key, w: string) {
    k in rows && !Terminal(rows[k].state) && w in rows[k].mounts
  }

  ghost predicate MountsOk(rows: map<Key, Row>, workspaces: map<Key, WorkspaceRow>) {
    && (forall k | k in rows && !Terminal(rows[k].state) :: NoRepeat(rows[k].mounts))
    && (forall j, k, w | Mounts(rows, j, w) && Mounts(rows, k, w) && j.projectId == k.projectId :: j == k)
    && (forall w | w in workspaces && workspaces[w].cleanup :: !Mounted(rows, w))
  }

  ghost predicate WorkspacesOk(s: World) {
    && (forall w | w in s.workspaces :: (s.workspaces[w].cleanup ==> s.workspaces[w].state != WorkspaceReady)
                                        && (s.workspaces[w].state == WorkspaceDeleting ==> s.workspaces[w].cleanup))
    && (forall w | w in s.workspaceFence :: w in s.workspaces)
    && (forall tid | tid in s.workspaceTasks ::
          var t := s.workspaceTasks[tid];
          t.key in s.workspaces && t.key in s.workspaceFence && s.workspaces[t.key] == t.base
          && !TerminalWorkspace(t.base.state))
    && (forall tid, uid | tid in s.workspaceTasks && uid in s.workspaceTasks
        && tid != uid :: s.workspaceTasks[tid].key != s.workspaceTasks[uid].key)
  }

  ghost predicate QuotaOk(rows: map<Key, Row>, limits: Limits) {
    |Active(rows)| <= limits.total && forall p :: |ActiveIn(rows, p)| <= limits.perProject
  }

  function Outstanding(guests: set<GuestOp>, p: string): set<GuestOp> {
    set g | g in guests && g.key.projectId == p
  }

  ghost predicate GuestsCounted(s: World) {
    forall p :: Count(s, p) == |Outstanding(s.guests, p)| <= s.limits.guestsPerProject
  }

  ghost predicate GuestsOk(s: World) {
    forall g | g in s.guests :: g.key in s.rows
        && (s.rows[g.key].cleanup.Some? || s.rows[g.key].state in {Running, Standby})
  }

  /** The later of durable and in-process activity covers every guest start and end of this process. */
  ghost predicate ActivityOk(s: World) {
    && (forall k | k in s.recent :: s.recent[k] <= s.clock)
    && (forall k | k in s.lastGuest :: k in s.rows && s.lastGuest[k] <= s.clock)
    && (forall k | k in s.lastGuest && s.rows[k].lifecycle.standbyAfter > 0 && s.rows[k].cleanup == None ::
          s.lastGuest[k] <= Max(s.rows[k].lastActiveAt, Recent(s, k)))
  }

  ghost predicate ClaimsOk(s: World) {
    && NoRepeat(s.creates)
    && (forall c | c in s.creates :: c in s.claims)
    && (forall k | k in s.rows :: s.rows[k].claim in s.claims && s.claims[s.rows[k].claim].sandbox == k)
    && (forall c | c in s.claims :: s.claims[c].sandbox in s.rows)
    && (forall i | 0 <= i < |s.answers| ::
          var a := s.answers[i]; a.claim in s.claims && a.operationId == Replied(s.claims[a.claim], a.digest))
  }

  ghost predicate DataOk(s: World) {
    && RowsOk(s) && LiveOk(s) && MountsOk(s.rows, s.workspaces) && WorkspacesOk(s)
    && QuotaOk(s.rows, s.limits) && GuestsCounted(s) && GuestsOk(s) && ActivityOk(s) && ClaimsOk(s)
  }

  ghost predicate Inv(s: World) {
    DataOk(s) && TasksOk(s) && FencesOwned(s)
  }

  lemma SameRows(s: World, s': World)
    requires RowsOk(s) && ClaimsOk(s) && s'.rows == s.rows && s.clock <= s'.clock && s'.claims == s.claims
             && s'.creates == s.creates && s'.answers == s.answers
    ensures RowsOk(s') && ClaimsOk(s')
  {
    hide NoRepeat;
  }

  lemma SameGuests(s: World, s': World)
    requires GuestsCounted(s) && GuestsOk(s) && s'.rows == s.rows && s'.guests == s.guests
             && s'.guestCount == s.guestCount && s'.limits == s.limits
    ensures GuestsCounted(s') && GuestsOk(s')
  {
    hide Outstanding;
    forall p ensures Count(s', p) == |Outstanding(s'.guests, p)| <= s'.limits.guestsPerProject {
      assert Count(s, p) == |Outstanding(s.guests, p)|;
    }
  }

  lemma SameActivity(s: World, s': World)
    requires ActivityOk(s) && s'.rows == s.rows && s.clock <= s'.clock && s'.recent == s.recent
             && s'.lastGuest == s.lastGuest
    ensures ActivityOk(s')
  {
  }

  lemma SameSpaces(s: World, s': World)
    requires WorkspacesOk(s) && s'.workspaces == s.workspaces && s'.workspaceFence == s.workspaceFence
             && s'.workspaceTasks == s.workspaceTasks
    ensures WorkspacesOk(s')
  {
  }

  lemma SameLive(s: World, s': World)
    requires LiveOk(s) && s'.rows == s.rows && s'.live == s.live && s'.pending == s.pending
    ensures LiveOk(s')
  {
  }

  /** Tasks, fences and the time of day are no part of the data. */
  lemma SameData(s: World, s': World)
    requires DataOk(s) && s' == s.(tasks := s'.tasks, fence := s'.fence, clock := s'.clock) && s.clock <= s'.clock
    ensures DataOk(s')
  {
    hide RowsOk, LiveOk, MountsOk, WorkspacesOk, QuotaOk, GuestsCounted, GuestsOk, ActivityOk, ClaimsOk;
    SameRows(s, s');
    SameGuests(s, s');
    SameActivity(s, s');
    SameSpaces(s, s');
    SameLive(s, s');
  }

  lemma InvHasRows(s: World)
    requires Inv(s)
    ensures TasksHaveRows(s)
  {
    hide MountsOk, WorkspacesOk, QuotaOk, GuestsCounted, ActivityOk, ClaimsOk, FencesOwned, LiveOk, Later, Legal,
         RowsOk;
    forall tid | tid in s.tasks ensures s.tasks[tid].key in s.rows
        && (s.tasks[tid].Cleaning? ==> s.rows[s.tasks[tid].key].cleanup.Some?) {
      assert TaskOk(s, s.tasks[tid]);
    }
  }

  // ---------- A durable write ----------

  ghost predicate Writable(s: World, k: Key, r: Row) {
    && FenceFree(s, k) && Legal(s.rows[k], r, s.clock) && (Terminal(r.state) ==> k !in s.live)
    && (k in s.pending ==> !Terminal(r.state) && r.backendId == "")
    && (HasGuests(s, k) ==> r.cleanup.Some? || r.state in {Running, Standby})
  }

  lemma ActiveShrinks(rows: map<Key, Row>, k: Key, r: Row)
    requires k in rows && !Terminal(rows[k].state)
    ensures |Active(rows[k := r])| <= |Active(rows)| && forall p :: |ActiveIn(rows[k := r], p)| <= |ActiveIn(rows, p)|
  {
    SubsetSize(Active(rows[k := r]), Active(rows));
    forall p ensures |ActiveIn(rows[k := r], p)| <= |ActiveIn(rows, p)| {
      SubsetSize(ActiveIn(rows[k := r], p), ActiveIn(rows, p));
    }
  }

  lemma SubsetSize<T>(a: set<T>, b: set<T>)
    requires a <= b
    ensures |a| <= |b|
  {
    assert b == a + (b - a);
  }

  lemma WriteKeepsMounts(rows: map<Key, Row>, workspaces: map<Key, WorkspaceRow>, k: Key, r: Row)
    requires MountsOk(rows, workspaces) && k in rows && !Terminal(rows[k].state) && r.mounts == rows[k].mounts
    ensures MountsOk(rows[k := r], workspaces)
  {
    hide NoRepeat;
    var rows' := rows[k := r];
    forall j | j in rows' && !Terminal(rows'[j].state) ensures NoRepeat(rows'[j].mounts) {
    }
    forall i, j, w | Mounts(rows', i, w) && Mounts(rows', j, w) && i.projectId == j.projectId ensures i == j {
      assert Mounts(rows, i, w) && Mounts(rows, j, w);
    }
    forall w | w in workspaces && workspaces[w].cleanup ensures !Mounted(rows', w) {
      assert !Mounted(rows, w);
    }
  }

  lemma WriteKeepsTasks(s: World, k: Key, r: Row)
    requires TasksOk(s) && Writable(s, k, r)
    ensures TasksOk(s.(rows := s.rows[k := r]))
  {
    hide PayloadOk;
    var s' := s.(rows := s.rows[k := r]);
    forall tid | tid in s'.tasks ensures TaskOk(s', s'.tasks[tid]) {
      assert TaskOk(s, s.tasks[tid]);
    }
  }

  lemma WriteKeepsActivity(s: World, k: Key, r: Row)
    requires ActivityOk(s) && Writable(s, k, r)
    ensures ActivityOk(s.(rows := s.rows[k := r]))
  {
  }

  lemma WriteKeepsRows(s: World, k: Key, r: Row)
    requires RowsOk(s) && ClaimsOk(s) && Writable(s, k, r)
    ensures var s' := s.(rows := s.rows[k := r]); RowsOk(s') && ClaimsOk(s')
  {
    hide NoRepeat, HasGuests, Replied;
  }

  lemma WriteKeepsLive(s: World, k: Key, r: Row)
    requires LiveOk(s) && GuestsOk(s) && Writable(s, k, r)
    ensures var s' := s.(rows := s.rows[k := r]); LiveOk(s') && GuestsOk(s')
  {
  }

  lemma WriteKeepsInv(s: World, k: Key, r: Row)
    requires Inv(s) && Writable(s, k, r)
    ensures Inv(s.(rows := s.rows[k := r]))
  {
    hide MountsOk, TaskOk, TasksOk, QuotaOk, ActivityOk, RowsOk, LiveOk, GuestsOk, ClaimsOk, Active, ActiveIn, RowOk;
    var s' := s.(rows := s.rows[k := r]);
    WriteKeepsRows(s, k, r);
    WriteKeepsLive(s, k, r);
    WriteKeepsTasks(s, k, r);
    WriteKeepsMounts(s.rows, s.workspaces, k, r);
    WriteKeepsActivity(s, k, r);
    ActiveShrinks(s.rows, k, r);
    SmallerQuota(s.rows, s'.rows, s.limits);
  }

  lemma SmallerQuota(rows: map<Key, Row>, rows': map<Key, Row>, limits: Limits)
    requires QuotaOk(rows, limits) && |Active(rows')| <= |Active(rows)|
             && forall p :: |ActiveIn(rows', p)| <= |ActiveIn(rows, p)|
    ensures QuotaOk(rows', limits)
  {
    hide Active, ActiveIn;
  }

  // ---------- Tasks and fences ----------

  lemma UnfenceKeepsInv(s: World, tid: nat)
    requires Inv(s) && tid in s.tasks && Fenced(s.tasks[tid])
    ensures Inv(Unfence(s, tid)) && s.tasks[tid].key !in Unfence(s, tid).fence
  {
    hide DataOk, Later, PayloadOk, Owned;
    var s' := Unfence(s, tid);
    SameData(s, s');
    forall uid | uid in s'.tasks ensures TaskOk(s', s'.tasks[uid]) {
      assert TaskOk(s, s.tasks[uid]) && Exclusive(s.tasks[tid], s.tasks[uid]);
    }
    forall owned | owned in s'.fence ensures Owned(s'.tasks, owned) {
      OwnedKept(s.tasks, s'.tasks, owned);
    }
  }

  lemma DropKeepsInv(s: World, tid: nat)
    requires Inv(s) && tid in s.tasks && s.tasks[tid].Observing?
    ensures Inv(Dropped(s, tid))
  {
    hide DataOk, Later, PayloadOk, Owned;
    var s' := Dropped(s, tid);
    SameData(s, s');
    forall uid | uid in s'.tasks ensures TaskOk(s', s'.tasks[uid]) {
      assert TaskOk(s, s.tasks[uid]);
    }
    forall owned | owned in s'.fence ensures Owned(s'.tasks, owned) {
      OwnedKept(s.tasks, s'.tasks, owned);
    }
  }

  ghost predicate Fenceable(s: World, tid: nat, t: Task) {
    && tid !in s.tasks && Fenced(t) && !t.Creating? && Idle(s, t.key) && t.base == s.rows[t.key]
    && !Terminal(t.base.state)
    && PayloadOk(t, s.live, s.pending, s.clock)
  }

  lemma FenceKeepsInv(s: World, tid: nat, t: Task)
    requires Inv(s) && Fenceable(s, tid, t)
    ensures Inv(Fence(s, tid, t))
  {
    hide DataOk, Later, PayloadOk;
    var s' := Fence(s, tid, t);
    SameData(s, s');
    forall uid | uid in s'.tasks ensures TaskOk(s', s'.tasks[uid]) {
      assert uid != tid ==> TaskOk(s, s.tasks[uid]);
    }
    forall owned | owned in s'.fence ensures Owned(s'.tasks, owned) {
      if owned == t.key {
        assert s'.tasks[tid] == t;
      } else {
        OwnedKept(s.tasks, s'.tasks, owned);
      }
    }
    forall uid, vid | uid in s'.tasks && vid in s'.tasks && uid != vid ensures Exclusive(s'.tasks[uid], s'.tasks[vid]) {
      assert uid != tid ==> TaskOk(s, s.tasks[uid]);
      assert vid != tid ==> TaskOk(s, s.tasks[vid]);
      assert uid != tid && vid != tid ==> Exclusive(s.tasks[uid], s.tasks[vid]);
    }
  }

  /** A worker goes on with new knowledge of its own. */
  lemma ReplaceKeepsInv(s: World, tid: nat, t: Task)
    requires Inv(s) && tid in s.tasks && PayloadOk(t, s.live, s.pending, s.clock)
    requires t.key == s.tasks[tid].key && t.base == s.tasks[tid].base && t.Observing? == s.tasks[tid].Observing?
    ensures Inv(s.(tasks := s.tasks[tid := t]))
  {
    hide DataOk, Later, PayloadOk, Owned;
    var s' := s.(tasks := s.tasks[tid := t]);
    assert TaskOk(s, s.tasks[tid]);
    SameData(s, s');
    forall uid | uid in s'.tasks ensures TaskOk(s', s'.tasks[uid]) {
      assert TaskOk(s, s.tasks[uid]);
    }
    forall owned | owned in s'.fence ensures Owned(s'.tasks, owned) {
      OwnedKept(s.tasks, s'.tasks, owned);
    }
    forall uid, vid | uid in s'.tasks && vid in s'.tasks && uid != vid ensures Exclusive(s'.tasks[uid], s'.tasks[vid]) {
      assert Exclusive(s.tasks[uid], s.tasks[vid]);
    }
  }

  lemma ObserverKeepsInv(s: World, tid: nat, k: Key)
    requires Inv(s) && tid !in s.tasks && Idle(s, k)
    ensures Inv(s.(tasks := s.tasks[tid := Observing(k, s.rows[k], false)]))
  {
    hide DataOk, PayloadOk, Owned;
    var t := Observing(k, s.rows[k], false);
    var s' := s.(tasks := s.tasks[tid := t]);
    assert PayloadOk(t, s.live, s.pending, s.clock) by {
      ObserverPayload(s, k);
    }
    SameData(s, s');
    forall uid | uid in s'.tasks ensures TaskOk(s', s'.tasks[uid]) {
      assert uid != tid ==> TaskOk(s, s.tasks[uid]);
    }
    forall owned | owned in s'.fence ensures Owned(s'.tasks, owned) {
      OwnedKept(s.tasks, s'.tasks, owned);
    }
    forall uid, vid | uid in s'.tasks && vid in s'.tasks && uid != vid ensures Exclusive(s'.tasks[uid], s'.tasks[vid]) {
      assert uid != tid ==> TaskOk(s, s.tasks[uid]);
      assert vid != tid ==> TaskOk(s, s.tasks[vid]);
      assert uid != tid && vid != tid ==> Exclusive(s.tasks[uid], s.tasks[vid]);
    }
  }

  lemma ObserverPayload(s: World, k: Key)
    requires DataOk(s) && k in s.rows
    ensures PayloadOk(Observing(k, s.rows[k], false), s.live, s.pending, s.clock)
  {
  }

  // ---------- The backend, the clock, crashes ----------

  /** A create lands, is declined, or a running sandbox is lost. */
  lemma BackendKeepsTask(s: World, s': World, t: Task)
    requires s' == s.(live := s'.live, pending := s'.pending) && s'.pending <= s.pending
             && s'.live.Keys <= s.live.Keys + s.pending
    requires TaskOk(s, t)
    ensures TaskOk(s', t)
  {
    hide Later, Legal, RowOk;
  }

  lemma BackendKeepsInv(s: World, s': World)
    requires Inv(s) && s' == s.(live := s'.live, pending := s'.pending) && s'.pending <= s.pending
    requires forall k | k in s'.live ::
             (k in s.live && s'.live[k] == s.live[k])
             || (k in s.pending && s'.live[k] == s.rows[k].mounts)
    ensures Inv(s')
  {
    hide RowsOk, MountsOk, WorkspacesOk, QuotaOk, GuestsCounted, GuestsOk, ActivityOk, ClaimsOk, TaskOk, Owned,
         Exclusive;
    SameRows(s, s');
    SameGuests(s, s');
    SameActivity(s, s');
    SameSpaces(s, s');
    forall uid | uid in s'.tasks ensures TaskOk(s', s'.tasks[uid]) {
      BackendKeepsTask(s, s', s.tasks[uid]);
    }
  }

  lemma TickKeepsInv(s: World, elapsed: nat)
    requires Inv(s)
    ensures Inv(s.(clock := s.clock + elapsed))
  {
    hide DataOk, Later;
    var s' := s.(clock := s.clock + elapsed);
    SameData(s, s');
    forall uid | uid in s'.tasks ensures TaskOk(s', s'.tasks[uid]) {
      assert TaskOk(s, s.tasks[uid]);
    }
  }

  lemma CrashKeepsInv(s: World)
    requires Inv(s)
    ensures Inv(Crashed(s))
  {
    hide RowOk, Later, MountsOk, QuotaOk, NoRepeat, TaskOk;
    assert forall p :: Outstanding({}, p) == {};
  }

  // ---------- A new sandbox ----------

  lemma InsertKeepsMounts(s: World, c: ClaimKey, k: Key, r: Row)
    requires MountsOk(s.rows, s.workspaces) && WorkspacesOk(s) && Admits(s, c, r.mounts) && k.projectId == c.projectId
             && k !in s.rows
    ensures MountsOk(s.rows[k := r], s.workspaces)
  {
    var rows' := s.rows[k := r];
    forall w | w in r.mounts ensures Key(k.projectId, w) in s.workspaces
        && s.workspaces[Key(k.projectId, w)].state == WorkspaceReady
                                     && !Mounted(s.rows, Key(k.projectId, w)) {
      var i :| 0 <= i < |r.mounts| && r.mounts[i] == w;
    }
    forall i, j, w | Mounts(rows', i, w) && Mounts(rows', j, w) && i.projectId == j.projectId ensures i == j {
      assert i != k ==> Mounts(s.rows, i, w);
      assert j != k ==> Mounts(s.rows, j, w);
    }
    forall w | w in s.workspaces && s.workspaces[w].cleanup ensures !Mounted(rows', w) {
      assert !Mounted(s.rows, w);
      assert w.projectId == k.projectId && w.id in r.mounts ==> w == Key(k.projectId, w.id);
    }
  }

  lemma InsertKeepsQuota(rows: map<Key, Row>, limits: Limits, k: Key, r: Row)
    requires QuotaOk(rows, limits) && k !in rows && |Active(rows)| < limits.total
             && |ActiveIn(rows, k.projectId)| < limits.perProject
    ensures QuotaOk(rows[k := r], limits)
  {
    var rows' := rows[k := r];
    SubsetSize(Active(rows'), Active(rows) + {k});
    forall p ensures |ActiveIn(rows', p)| <= limits.perProject {
      if p == k.projectId {
        SubsetSize(ActiveIn(rows', p), ActiveIn(rows, p) + {k});
      } else {
        SubsetSize(ActiveIn(rows', p), ActiveIn(rows, p));
      }
    }
  }

  lemma InsertKeepsRows(s: World, step: CreationStep)
    requires step.Create? && Key(step.claim.projectId, step.id) !in s.rows && RowsOk(s) && LiveOk(s) && GuestsOk(s)
    ensures var s' := Inserted(s, step); RowsOk(s') && LiveOk(s') && GuestsOk(s')
  {
  }

  lemma InsertKeepsActivity(s: World, step: CreationStep)
    requires step.Create? && CreationEnabled(s, step) && ActivityOk(s)
    ensures ActivityOk(Inserted(s, step))
  {
    hide Admits;
  }

  lemma NoRepeatWith<T>(s: seq<T>, x: T)
    requires NoRepeat(s) && x !in s
    ensures NoRepeat(s + [x])
  {
  }

  lemma InsertKeepsClaims(s: World, step: CreationStep)
    requires step.Create? && step.claim !in s.claims && Key(step.claim.projectId, step.id) !in s.rows && ClaimsOk(s)
    ensures ClaimsOk(Inserted(s, step))
  {
    hide NoRepeat;
    NoRepeatWith(s.creates, step.claim);
  }

  lemma AdmitsFresh(s: World, c: ClaimKey, mounts: seq<string>)
    requires Admits(s, c, mounts)
    ensures c !in s.claims && |ActiveIn(s.rows, c.projectId)| < s.limits.perProject && |Active(s.rows)| < s.limits.total
  {
    hide Mounted, ActiveIn, Active;
  }

  lemma InsertKeepsData(s: World, step: CreationStep)
    requires DataOk(s) && step.Create? && CreationEnabled(s, step)
    ensures DataOk(Inserted(s, step))
  {
    hide RowsOk, LiveOk, GuestsOk, ActivityOk, ClaimsOk, MountsOk, QuotaOk, Active, ActiveIn, Outstanding, Admits;
    var s' := Inserted(s, step);
    var k := Key(step.claim.projectId, step.id);
    AdmitsFresh(s, step.claim, step.mounts);
    InsertKeepsRows(s, step);
    InsertKeepsClaims(s, step);
    InsertKeepsActivity(s, step);
    InsertKeepsMounts(s, step.claim, k, s'.rows[k]);
    InsertKeepsQuota(s.rows, s.limits, k, s'.rows[k]);
  }

  lemma InsertKeepsInv(s: World, step: CreationStep)
    requires Inv(s) && step.Create? && CreationEnabled(s, step)
    ensures Inv(Inserted(s, step))
  {
    hide DataOk, Later, Legal, Admits, Owned;
    var s' := Inserted(s, step);
    var k := Key(step.claim.projectId, step.id);
    InsertKeepsData(s, step);
    FreshKey(s, k);
    forall uid | uid in s'.tasks ensures TaskOk(s', s'.tasks[uid]) {
      assert uid != step.tid ==> TaskOk(s, s.tasks[uid]);
    }
    forall owned | owned in s'.fence ensures Owned(s'.tasks, owned) {
      if owned == k {
        TaskOwns(s'.tasks, step.tid);
      } else {
        OwnedKept(s.tasks, s'.tasks, owned);
      }
    }
    forall uid, vid | uid in s'.tasks && vid in s'.tasks && uid != vid ensures Exclusive(s'.tasks[uid], s'.tasks[vid]) {
      assert uid != step.tid ==> TaskOk(s, s.tasks[uid]);
      assert vid != step.tid ==> TaskOk(s, s.tasks[vid]);
      assert uid != step.tid && vid != step.tid ==> Exclusive(s.tasks[uid], s.tasks[vid]);
    }
  }

  lemma TaskOwns(tasks: map<nat, Task>, tid: nat)
    requires tid in tasks && Fenced(tasks[tid])
    ensures Owned(tasks, tasks[tid].key)
  {
  }

  lemma FreshKey(s: World, k: Key)
    requires DataOk(s) && k !in s.rows
    ensures k !in s.live && !HasGuests(s, k)
  {
    hide RowsOk, MountsOk, WorkspacesOk, QuotaOk, GuestsCounted, ActivityOk, ClaimsOk;
  }

  // ---------- Guests and activity ----------

  lemma FencedHasNoGuests(s: World, k: Key)
    requires TasksOk(s) && FencesOwned(s)
    ensures k in s.fence ==> !HasGuests(s, k)
  {
    hide PayloadOk, Later, Exclusive;
    if k in s.fence {
      var tid :| tid in s.tasks && Fenced(s.tasks[tid]) && s.tasks[tid].key == k;
      assert TaskOk(s, s.tasks[tid]);
    }
  }

  predicate Covered(s: World, k: Key, recent: int) {
    k in s.lastGuest && k in s.rows && s.rows[k].lifecycle.standbyAfter > 0 && s.rows[k].cleanup == None ==>
      s.lastGuest[k] <= Max(s.rows[k].lastActiveAt, recent)
  }

  lemma RecentKeepsData(s: World, k: Key, t: int)
    requires DataOk(s) && t <= s.clock && Covered(s, k, t)
    ensures DataOk(s.(recent := s.recent[k := t]))
  {
    hide RowsOk, LiveOk, MountsOk, WorkspacesOk, QuotaOk, GuestsCounted, GuestsOk, ClaimsOk;
    var s' := s.(recent := s.recent[k := t]);
    SameRows(s, s');
    SameGuests(s, s');
    SameSpaces(s, s');
    SameLive(s, s');
  }

  lemma RecentKeepsInv(s: World, k: Key, t: int)
    requires Inv(s) && t <= s.clock && Covered(s, k, t)
    ensures Inv(s.(recent := s.recent[k := t]))
  {
    hide DataOk, PayloadOk, Later, Owned, Exclusive;
    var s' := s.(recent := s.recent[k := t]);
    RecentKeepsData(s, k, t);
    forall uid | uid in s'.tasks ensures TaskOk(s', s'.tasks[uid]) {
      assert TaskOk(s, s.tasks[uid]);
    }
  }

  lemma GuestInvRest(s: World, s': World)
    requires Inv(s) && s' == s.(guests := s'.guests, guestCount := s'.guestCount, lastGuest := s'.lastGuest)
    requires GuestsCounted(s') && GuestsOk(s') && ActivityOk(s') && forall k | HasGuests(s', k) :: k !in s.fence
    ensures Inv(s')
  {
    hide RowsOk, LiveOk, MountsOk, WorkspacesOk, QuotaOk, GuestsCounted, GuestsOk, ActivityOk, ClaimsOk, PayloadOk,
         Later, Owned, Exclusive, HasGuests;
    SameRows(s, s');
    SameSpaces(s, s');
    SameLive(s, s');
    forall uid | uid in s'.tasks ensures TaskOk(s', s'.tasks[uid]) {
      assert TaskOk(s, s.tasks[uid]);
    }
  }

  lemma OutstandingGains(guests: set<GuestOp>, g: GuestOp, p: string)
    requires g !in guests
    ensures g.key.projectId == p ==> |Outstanding(guests + {g}, p)| == |Outstanding(guests, p)| + 1
    ensures g.key.projectId != p ==> Outstanding(guests + {g}, p) == Outstanding(guests, p)
  {
    if g.key.projectId == p {
      assert Outstanding(guests + {g}, p) == Outstanding(guests, p) + {g};
    }
  }

  lemma OutstandingLoses(guests: set<GuestOp>, g: GuestOp, p: string)
    requires g in guests
    ensures |Outstanding(guests, p)| == |Outstanding(guests - {g}, p)| + if g.key.projectId == p then 1 else 0
  {
    OutstandingGains(guests - {g}, g, p);
    assert guests - {g} + {g} == guests;
  }

  lemma AddGuestKeepsCounts(s: World, k: Key, op: string)
    requires GuestsCounted(s) && GuestOp(k, op) !in s.guests && Count(s, k.projectId) < s.limits.guestsPerProject
    ensures GuestsCounted(GuestAdded(s, k, op))
  {
    hide Outstanding;
    var s' := GuestAdded(s, k, op);
    forall p ensures Count(s', p) == |Outstanding(s'.guests, p)| <= s'.limits.guestsPerProject {
      assert Count(s, p) == |Outstanding(s.guests, p)|;
      OutstandingGains(s.guests, GuestOp(k, op), p);
    }
  }

  lemma AddGuestKeepsInv(s: World, k: Key, op: string)
    requires Inv(s) && FenceFree(s, k) && s.rows[k].state in {Running, Standby} && GuestOp(k, op) !in s.guests
    requires Count(s, k.projectId) < s.limits.guestsPerProject
    requires s.rows[k].lifecycle.standbyAfter > 0 ==> s.clock <= Max(s.rows[k].lastActiveAt, Recent(s, k))
    ensures Inv(GuestAdded(s, k, op))
  {
    hide RowsOk, MountsOk, QuotaOk, TasksOk, FencesOwned, ClaimsOk, WorkspacesOk, LiveOk, GuestsCounted;
    var s' := GuestAdded(s, k, op);
    AddGuestKeepsCounts(s, k, op);
    forall j | HasGuests(s', j) ensures j !in s.fence {
      FencedHasNoGuests(s, j);
    }
    GuestInvRest(s, s');
  }

  lemma RemoveGuestKeepsCounts(s: World, k: Key, op: string)
    requires GuestsCounted(s) && GuestOp(k, op) in s.guests
    ensures GuestsCounted(GuestRemoved(s, k, op))
  {
    hide Outstanding;
    var s' := GuestRemoved(s, k, op);
    forall p ensures Count(s', p) == |Outstanding(s'.guests, p)| <= s'.limits.guestsPerProject {
      assert Count(s, p) == |Outstanding(s.guests, p)|;
      OutstandingLoses(s.guests, GuestOp(k, op), p);
    }
  }

  lemma RemoveGuestKeepsInv(s: World, k: Key, op: string)
    requires Inv(s) && GuestOp(k, op) in s.guests
    requires k in s.rows && s.rows[k].lifecycle.standbyAfter > 0 && s.rows[k].cleanup == None ==>
               s.clock <= Max(s.rows[k].lastActiveAt, Recent(s, k))
    ensures Inv(GuestRemoved(s, k, op))
  {
    hide RowsOk, MountsOk, QuotaOk, TasksOk, FencesOwned, ClaimsOk, WorkspacesOk, LiveOk, GuestsCounted;
    var s' := GuestRemoved(s, k, op);
    RemoveGuestKeepsCounts(s, k, op);
    forall j | HasGuests(s', j) ensures j !in s.fence {
      FencedHasNoGuests(s, j);
    }
    GuestInvRest(s, s');
  }

  /** Recorded activity keeps the invariant and, for a running or parked sandbox, reaches the present. */
  lemma RecordKeepsInv(s: World, k: Key, saved: bool)
    requires Inv(s) && FenceFree(s, k) && (s.rows[k].state in {Running, Standby} || s.rows[k].cleanup.Some?)
    ensures Inv(Recorded(s, k, saved))
    ensures saved && s.rows[k].state in {Running, Standby} ==> s.clock <= Recorded(s, k, saved).rows[k].lastActiveAt
  {
    hide TasksOk, FencesOwned, MountsOk, QuotaOk, GuestsCounted, ClaimsOk, WorkspacesOk, NoRepeat;
    var r := Advanced(s.rows[k], s.clock);
    assert RowOk(s.rows[k], s.clock);
    if saved {
      var s1 := s.(rows := s.rows[k := r]);
      if s.rows[k].state in {Running, Standby} {
        WriteKeepsInv(s, k, r);
      } else {
        assert s1.rows == s.rows;
      }
      RecentKeepsInv(s1, k, r.lastActiveAt);
    }
  }
}
