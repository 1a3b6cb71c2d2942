/** The embedded store (internal/store/sqlite.go, sqlite_scoped.go): authoritative tables, the indexes derived
    from them, and transactions that change both or neither. */
module Store {
  import opened Identifiers
  import opened Records
  import opened ScopedState
  import Admission = AdmissionIndex
  import Heads = LifecycleHeads

  /** A transaction's callback: it returns the new state or gives up. */
  type Callback = State -> Option<State>

  /** Everything a store holds; `capacity` and `mounts` and `heads` are derived. */
  datatype Database = Database(state: State, capacity: map<Admission.Counter, int>,
                               mounts: map<Admission.MountKey, RowKey>, heads: Heads.Heads)

  ghost predicate Consistent(db: Database) {
    && ValidState(db.state)
    && Admission.IndexesMatch(db.capacity, db.mounts, db.state.resources)
    && Heads.Sound(db.heads, db.state.resources)
  }

  /** `db'` is `db` with the state replaced by `s`, every index following. */
  ghost predicate Becomes(db: Database, db': Database, s: State) {
    && db'.state == s && Consistent(db')
    && Heads.Follows(db.heads, db.state.resources, s.resources, db'.heads)
  }

  lemma OverlaySelf<K(!new), V>(base: map<K, V>, after: map<K, V>)
    ensures Overlay(base, base, after) == after
  {
  }

  lemma MergeSelf(s: State, after: State)
    ensures Merge(s, s, after) == after
  {
    hide Overlay;
    OverlaySelf(s.resources, after.resources);
    OverlaySelf(s.claims, after.claims);
    OverlaySelf(s.events, after.events);
  }

  /** A slice tells the truth about every row a transaction may change. */
  ghost predicate Covers(before: State, after: State, s: State) {
    && (forall k | k in before.resources :: k in s.resources && s.resources[k] == before.resources[k])
    && (forall k | k in Diff(before.resources, after.resources) :: k in before.resources <==> k in s.resources)
  }

  ghost predicate Written(rows: map<RowKey, Resource>, base: map<RowKey, Resource>, after: map<RowKey, Resource>,
                          done: set<RowKey>) {
    && (forall k | k in done :: (k in rows <==> k in after) && (k in rows ==> rows[k] == after[k]))
    && (forall k | k !in done :: (k in rows <==> k in base) && (k in rows ==> rows[k] == base[k]))
  }

  lemma WrittenNothing(base: map<RowKey, Resource>, after: map<RowKey, Resource>)
    ensures Written(base, base, after, {})
  {
  }

  lemma WrittenBefore(rows: map<RowKey, Resource>, base: map<RowKey, Resource>, after: map<RowKey, Resource>,
                      done: set<RowKey>, k: RowKey)
    requires Written(rows, base, after, done) && k !in done
    ensures k in rows <==> k in base
  {
  }

  lemma WrittenNext(rows: map<RowKey, Resource>, rows': map<RowKey, Resource>, base: map<RowKey, Resource>,
                    after: map<RowKey, Resource>,
                    done: set<RowKey>, k: RowKey)
    requires Written(rows, base, after, done)
    requires rows' == if k in after then rows[k := after[k]] else rows - {k}
    ensures Written(rows', base, after, done + {k})
  {
  }

  lemma SoundCascading(heads: Heads.Heads, rows: map<RowKey, Resource>)
    ensures Heads.Sound(heads, rows) ==> Cascading(heads, heads, rows)
  {
    hide Heads.HeadKeyOf, Heads.EligibleRow;
  }

  lemma WrittenIsOverlay(rows: map<RowKey, Resource>, base: map<RowKey, Resource>, before: map<RowKey, Resource>,
                         after: map<RowKey, Resource>)
    requires Written(rows, base, after, Diff(before, after))
    ensures rows == Overlay(base, before, after)
  {
    hide Overlay, Diff;
    var all := Overlay(base, before, after);
    forall k ensures (k in rows <==> k in all) && (k in rows ==> rows[k] == all[k]) {
      OverlayAt(base, before, after, k);
    }
  }

  /** The heads while rows are being written: those whose operation has not been deleted so far. */
  ghost predicate Cascading(heads: Heads.Heads, prior: Heads.Heads, rows: map<RowKey, Resource>) {
    forall k :: Heads.Get(heads, k) == if k in prior && prior[k] in rows then Some(prior[k]) else None
  }

  class SqlStore {
    var state: State
    const index: Admission.Tables
    const recovery: Heads.Table

    function Contents(): Database
      reads this, index, recovery
    {
      Database(state, index.capacity, index.mounts, recovery.heads)
    }

    /** Opens a store over the given tables. The admission indexes are always rebuilt; the recovery index
        keeps its insertion order unless it is missing. */
    constructor (state: State, heads: Option<Heads.Heads>)
      requires ValidState(state) && Admission.SingleMounts(state.resources)
      requires heads.Some? ==> Heads.Sound(heads.value, state.resources)
      ensures Consistent(Contents()) && this.state == state && fresh(index) && fresh(recovery)
      ensures if heads.Some? then recovery.heads == heads.value else Heads.Rebuilt(recovery.heads, state.resources)
    {
      hide SafeName, ValidId;
      this.state := state;
      index := new Admission.Tables();
      recovery := new Heads.Table();
      new;
      var ok := index.Rebuild(state.resources);
      if heads.Some? {
        recovery.heads := heads.value;
      } else {
        recovery.Rebuild(state.resources);
        Heads.RebuiltSound(recovery.heads, state.resources);
      }
    }

    /** Writes the differing rows in any order; deleting an operation takes its head along. */
    method WriteRows(before: map<RowKey, Resource>, after: map<RowKey, Resource>)
      modifies this`state, recovery
      ensures state == old(state).(resources := Overlay(old(state).resources, before, after))
      ensures old(Heads.Sound(recovery.heads, state.resources)) ==>
                Heads.Cascaded(recovery.heads, old(recovery.heads), state.resources)
    {
      hide Diff, Overlay, Heads.HeadKeyOf, Heads.EligibleRow, Heads.Sound, Written;
      var changed := Diff(before, after);
      var pending := changed;
      ghost var base, prior := state, recovery.heads;
      assert changed - pending == {};
      WrittenNothing(base.resources, after);
      SoundCascading(prior, base.resources);
      while pending != {}
        invariant pending <= changed
        invariant state == base.(resources := state.resources)
                  && Written(state.resources, base.resources, after, changed - pending)
        invariant Heads.Sound(prior, base.resources) ==> Cascading(recovery.heads, prior, state.resources)
        decreases pending
      {
        var k :| k in pending;
        ghost var heads0, rows0 := recovery.heads, state.resources;
        if k in after {
          state := state.(resources := state.resources[k := after[k]]);
          WrittenBefore(rows0, base.resources, after, changed - pending, k);
          KeptOperation(heads0, prior, base.resources, rows0, state.resources, k);
        } else {
          state := state.(resources := state.resources - {k});
          recovery.Cascade(k);
        }
        WrittenNext(rows0, state.resources, base.resources, after, changed - pending, k);
        assert changed - (pending - {k}) == changed - pending + {k};
        pending := pending - {k};
      }
      assert changed - pending == changed;
      WrittenIsOverlay(state.resources, base.resources, before, after);
    }

    /** Applies a transaction's changes to the tables and to every index. It fails only on a workspace
        mounted twice, and then the caller rolls back. */
    method SyncEncodedState(before: State, after: State) returns (ok: bool)
      requires Consistent(Contents()) && ValidRows(before.resources) && ValidRows(after.resources)
               && Covers(before, after, state)
      modifies this, index, recovery
      ensures state == Merge(old(state), before, after)
      ensures ok <==> Admission.SingleMounts(state.resources)
      ensures ok ==> Admission.IndexesMatch(index.capacity, index.mounts, state.resources)
      ensures Heads.Follows(old(recovery.heads), old(state).resources, state.resources, recovery.heads)
    {
      hide Diff, Overlay, Admission.IndexesMatch, Admission.SingleMounts, Heads.Sound, Heads.Follows, Heads.Cascaded,
           Covers, ValidRow;
      ghost var base, prior := state, recovery.heads;
      CoversChanges(before, after, base);
      WriteRows(before.resources, after.resources);
      MergedRowsValid(before.resources, after.resources, base.resources);
      recovery.Sync(Diff(before.resources, after.resources), before.resources, state.resources, base.resources, prior);
      ok := index.Sync(before.resources, after.resources, base.resources);
      state := state.(claims := Overlay(state.claims, before.claims, after.claims),
                      events := Overlay(state.events, before.events, after.events));
    }

    method Rollback(state: State, capacity: map<Admission.Counter, int>, mounts: map<Admission.MountKey, RowKey>,
                    heads: Heads.Heads)
      modifies this, index, recovery
      ensures Contents() == Database(state, capacity, mounts, heads)
    {
      this.state := state;
      index.capacity, index.mounts := capacity, mounts;
      recovery.heads := heads;
    }

    /** A whole-state transaction commits exactly when its callback returns a valid state that mounts no
        workspace twice; otherwise nothing changes. */
    method Update(fn: Callback) returns (committed: bool)
      requires Consistent(Contents())
      modifies this, index, recovery
      ensures committed <==> Commits(fn(old(state)))
      ensures if committed then Becomes(old(Contents()), Contents(), fn(old(state)).value)
              else Contents() == old(Contents())
      ensures Consistent(Contents())
    {
      hide ValidState, Admission.IndexesMatch, Admission.SingleMounts, Heads.Sound, Heads.Follows, Merge, Diff;
      var before, capacity, mounts, heads := state, index.capacity, index.mounts, recovery.heads;
      var after := fn(state);
      if after.None? {
        return false;
      }
      var valid := Validate(after.value);
      if !valid {
        return false;
      }
      MergeSelf(before, after.value);
      ValidStateRows(before);
      ValidStateRows(after.value);
      committed := SyncEncodedState(before, after.value);
      if !committed {
        Rollback(before, capacity, mounts, heads);
      } else {
        Heads.FollowsSound(heads, before.resources, state.resources, recovery.heads);
      }
    }

    /** A row-scoped transaction: the callback sees a slice, and only declared changes are accepted. */
    method UpdateRows(scope: Scope, fn: Callback) returns (committed: bool)
      requires Consistent(Contents())
      modifies this, index, recovery
      ensures committed <==> CommitsRows(scope, old(state), fn(Slice(scope, old(state))))
      ensures if committed then Becomes(old(Contents()), Contents(),
                                        Merge(old(state), Slice(scope, old(state)), fn(Slice(scope, old(state))).value))
              else Contents() == old(Contents())
      ensures Consistent(Contents())
    {
      hide ValidState, Admission.IndexesMatch, Admission.SingleMounts, Heads.Sound, Heads.Follows, Merge, Slice, Diff,
           ScopedChanges, ValidScope;
      if !ValidScope(scope) {
        return false;
      }
      var before, capacity, mounts, heads := state, index.capacity, index.mounts, recovery.heads;
      var slice := LoadMutationState(scope, state);
      SliceValid(scope, state);
      SliceHasTails(scope, state);
      var after := fn(slice);
      if after.None? {
        return false;
      }
      var valid := Validate(after.value);
      if !valid {
        return false;
      }
      ValidStateRows(slice);
      ValidStateRows(after.value);
      var declared := ValidateScopedChanges(scope, slice, after.value);
      if !declared {
        return false;
      }
      ScopeCovers(scope, before, after.value);
      CommitValid(scope, before, after.value);
      committed := SyncEncodedState(slice, after.value);
      if !committed {
        Rollback(before, capacity, mounts, heads);
      } else {
        ValidStateRows(state);
        Heads.FollowsSound(heads, before.resources, state.resources, recovery.heads);
      }
    }

    /** Moves a sandbox's activity forward without touching any index. */
    method RecordSandboxActivity(projectId: string, sandboxId: string, at: int) returns (r: Option<Resource>)
      requires Consistent(Contents())
      modifies this`state
      ensures var k := RowKey(SandboxKind, projectId, sandboxId);
              if k in old(state).resources then
                && r == Some(AdvanceActivity(old(state).resources[k], at))
                && state == old(state).(resources := old(state).resources[k := r.value])
              else r == None && state == old(state)
      ensures var k := RowKey(SandboxKind, projectId, sandboxId);
              k in old(state).resources ==> r.Some? && ActivityAdvanced(old(state).resources[k], r.value, at)
      ensures Becomes(old(Contents()), Contents(), state)
    {
      hide ValidState, Admission.IndexesMatch, Heads.Sound, Heads.Follows, ActivityAdvanced;
      var k := RowKey(SandboxKind, projectId, sandboxId);
      NothingFollows(recovery.heads, state.resources);
      if k !in state.resources {
        return None;
      }
      QuietFollows(recovery.heads, state.resources, k, AdvanceActivity(state.resources[k], at));
      var current := state.resources[k];
      var next := AdvanceActivity(current, at);
      ActivityExactly(current, at);
      ActivityKeepsConsistent(Contents(), k, at);
      assert state.resources[k := current] == state.resources;
      if next.Sandbox? && current.Sandbox? && next.revision != current.revision {
        state := state.(resources := state.resources[k := next]);
      }
      return Some(next);
    }

    /** Appends to an existing sandbox's stream, at the next sequence. */
    method AppendSandboxEvent(event: Event) returns (committed: bool)
      requires Consistent(Contents())
      modifies this`state
      ensures committed <==>
              RowKey(SandboxKind, event.projectId, event.resourceId) in old(state).resources && WritableEvent(event)
      ensures if committed then
                Counted(old(state).events)
                && state == old(state).(events := Appended(old(state).events, Stamped(old(state), event)))
                && OneMoreEvent(old(state), state, event)
              else state == old(state)
      ensures Becomes(old(Contents()), Contents(), state)
    {
      hide ValidState, Admission.IndexesMatch, Heads.Sound, Heads.Follows, Appended, WritableEvent, OneMoreEvent;
      NothingFollows(recovery.heads, state.resources);
      if RowKey(SandboxKind, event.projectId, event.resourceId) !in state.resources || !WritableEvent(event) {
        return false;
      }
      ValidStateRows(state);
      StampedWritable(state, event);
      var events := AppendEvent(state.events, Stamped(state, event).(sequence := 0));
      AppendKeepsValid(state, Stamped(state, event));
      AppendExactly(state, event);
      state := state.(events := events);
      return true;
    }
  }

  /** Activity counts for running and parked sandboxes only; it never goes back. */
  function AdvanceActivity(r: Resource, at: int): Resource {
    if !r.Sandbox? || (r.state != Running && r.state != Standby) then r
    else
      var t := if at < r.lastActiveAt then r.lastActiveAt else at;
      r.(updatedAt := t, lastActiveAt := t, revision := r.revision + 1,
         standbyEligibleAt := if r.standbyAfter > 0 then t + (r.standbyAfter + r.standbyGrace) * 1_000_000_000 else 0)
  }

  const SECOND: int := 1_000_000_000

  /** What recording activity does to a row: a running or parked sandbox is active at the later of the two times, and
      its standby deadline starts over from there; any other row stays as it is. */
  predicate ActivityAdvanced(r: Resource, next: Resource, at: int) {
    if r.Sandbox? && (r.state == Running || r.state == Standby) then
      && next.Sandbox? && next.lastActiveAt >= r.lastActiveAt && next.lastActiveAt >= at
      && (next.lastActiveAt == r.lastActiveAt || next.lastActiveAt == at)
      && next.updatedAt == next.lastActiveAt && next.revision == r.revision + 1
      && next.standbyEligibleAt == (if r.standbyAfter > 0 then
                                      next.lastActiveAt + (r.standbyAfter + r.standbyGrace) * SECOND
                                    else 0)
      && next == r.(lastActiveAt := next.lastActiveAt, updatedAt := next.updatedAt, revision := next.revision,
                    standbyEligibleAt := next.standbyEligibleAt)
    else next == r
  }

  lemma ActivityExactly(r: Resource, at: int)
    ensures ActivityAdvanced(r, AdvanceActivity(r, at), at)
  {
  }

  /** The event as it is written: it carries the state its sandbox has then. */
  function Stamped(s: State, e: Event): Event {
    var k := RowKey(SandboxKind, e.projectId, e.resourceId);
    if k in s.resources && s.resources[k].Sandbox? then e.(state := Some(s.resources[k].state)) else e
  }

  /** One event more: the next of its stream, with its sandbox's state; nothing else changes. */
  ghost predicate OneMoreEvent(s: State, s': State, e: Event) {
    var t, k := Stream(e.projectId, e.resourceId), RowKey(SandboxKind, e.projectId, e.resourceId);
    && k in s.resources && s.resources[k].Sandbox?
    && exists last ::
         && LastIs(s.events, t, last)
         && s' == s.(events := s.events[EventKey(t, last + 1) := e.(sequence := last + 1,
                                                                    state := Some(s.resources[k].state))])
  }

  lemma AppendExactly(s: State, e: Event)
    requires ValidState(s) && RowKey(SandboxKind, e.projectId, e.resourceId) in s.resources && Counted(s.events)
    ensures OneMoreEvent(s, s.(events := Appended(s.events, Stamped(s, e))), e)
  {
    hide ValidClaims, ValidEvents, SafeName, ValidId;
    var k := RowKey(SandboxKind, e.projectId, e.resourceId);
    assert ValidRow(k, s.resources[k]);
    LastIsLast(s.events, Stream(e.projectId, e.resourceId));
  }

  lemma LastIsLast(events: map<EventKey, Event>, t: Stream)
    requires forall k | k in events :: k.sequence >= 1
    ensures LastIs(events, t, Last(events, t))
  {
    LastExists(events, t);
  }

  lemma StampedWritable(s: State, e: Event)
    ensures WritableEvent(e) == WritableEvent(Stamped(s, e))
  {
    hide SafeName, ValidId, NoControl, Blank;
  }

  lemma AppendKeepsValid(s: State, e: Event)
    requires ValidState(s) && WritableEvent(e)
    ensures Counted(s.events)
    ensures Appended(s.events, e.(sequence := 0)) == Appended(s.events, e)
    ensures ValidState(s.(events := Appended(s.events, e)))
  {
    hide ValidRows, ValidClaims, SafeName, ValidId, Blank;
    ValidStateRows(s);
  }

  ghost predicate Commits(after: Option<State>) {
    after.Some? && ValidState(after.value) && Admission.SingleMounts(after.value.resources)
  }

  ghost predicate CommitsRows(scope: Scope, s: State, after: Option<State>) {
    && ValidScope(scope) && after.Some? && ValidState(after.value) && ScopedChanges(scope, Slice(scope, s), after.value)
    && Admission.SingleMounts(Merge(s, Slice(scope, s), after.value).resources)
  }

  lemma ValidStateRows(s: State)
    requires ValidState(s)
    ensures ValidRows(s.resources) && Counted(s.events)
  {
    hide ValidClaims, ValidRow, SafeName, ValidId, Blank;
    forall k | k in s.events ensures k.sequence >= 1 {
      assert ValidEvent(k, s.events[k]);
    }
  }

  lemma ScopeCovers(scope: Scope, s: State, after: State)
    requires ScopedChanges(scope, Slice(scope, s), after)
    ensures Covers(Slice(scope, s), after, s)
  {
    hide Slice, Diff, OperationsKept, ClaimsKept, HistoryKept;
    forall k ensures k in Slice(scope, s).resources ==>
        k in s.resources
        && s.resources[k] == Slice(scope, s).resources[k]
             ensures k in scope.rows && k in s.resources ==> k in Slice(scope, s).resources
    {
      SliceRows(scope, s, k);
    }
  }

  lemma CoversChanges(before: State, after: State, s: State)
    requires Covers(before, after, s)
    ensures Heads.Changes(Diff(before.resources, after.resources), before.resources, s.resources,
                          Overlay(s.resources, before.resources, after.resources))
    ensures Admission.ChangesOf(Diff(before.resources, after.resources), before.resources, after.resources, s.resources)
  {
    hide Diff, Overlay;
    var all := Overlay(s.resources, before.resources, after.resources);
    forall k | k !in Diff(before.resources, after.resources)
      ensures (k in s.resources <==> k in all) && (k in s.resources ==> s.resources[k] == all[k])
    {
      OverlayAt(s.resources, before.resources, after.resources, k);
    }
  }

  lemma MergedRowsValid(before: map<RowKey, Resource>, after: map<RowKey, Resource>, base: map<RowKey, Resource>)
    requires ValidRows(base) && ValidRows(after)
    ensures ValidRows(Overlay(base, before, after))
  {
    hide Overlay, Diff, ValidRow;
    forall k | k in Overlay(base, before, after) ensures ValidRow(k, Overlay(base, before, after)[k]) {
      OverlayAt(base, before, after, k);
    }
  }

  lemma KeptOperation(heads: Heads.Heads, prior: Heads.Heads, base: map<RowKey, Resource>, rows: map<RowKey, Resource>,
                      rows': map<RowKey, Resource>, k: RowKey)
    requires k in rows' && rows' == rows[k := rows'[k]] && (k in rows <==> k in base)
    ensures Heads.Sound(prior, base) && Cascading(heads, prior, rows) ==> Cascading(heads, prior, rows')
  {
    hide Heads.HeadKeyOf, Heads.EligibleRow;
  }

  /** A row no index would tell from the other; only a sandbox may differ at all. */
  predicate Quiet(r: Resource, next: Resource) {
    && (!r.Sandbox? ==> next == r)
    && (r.Sandbox? ==> next.Sandbox? && next == r.(updatedAt := next.updatedAt, lastActiveAt := next.lastActiveAt,
                                                   revision := next.revision,
                                                   standbyEligibleAt := next.standbyEligibleAt))
  }

  lemma QuietKeepsRows(s: State, k: RowKey, next: Resource)
    requires ValidState(s) && k in s.resources && Quiet(s.resources[k], next)
    ensures ValidState(s.(resources := s.resources[k := next]))
  {
    hide SafeName, ValidId, Blank, ValidEvents, ValidDigest;
    assert ValidRow(k, s.resources[k]) && ValidRow(k, next);
    forall c | c in s.claims ensures Backed(s.resources[k := next], c, s.claims[c]) {
      assert Backed(s.resources, c, s.claims[c]);
    }
  }

  lemma QuietKeepsHeads(heads: Heads.Heads, rows: map<RowKey, Resource>, k: RowKey, next: Resource)
    requires Heads.Sound(heads, rows) && k in rows && Quiet(rows[k], next)
    ensures Heads.Sound(heads, rows[k := next])
  {
    hide Heads.HeadKeyOf;
    var rows' := rows[k := next];
    QuietHeadsAlike(rows[k], next);
    forall h | h in heads ensures Heads.Member(rows', heads[h], h) && Heads.Eligible(rows', h) {
      assert Heads.Member(rows, heads[h], h) && Heads.Eligible(rows, h);
    }
  }

  /** To the recovery index, recorded activity is a transaction in which nothing happened. */
  lemma QuietFollows(heads: Heads.Heads, rows: map<RowKey, Resource>, k: RowKey, next: Resource)
    requires Heads.Sound(heads, rows) && k in rows && Quiet(rows[k], next)
    ensures Heads.Follows(heads, rows, rows[k := next], heads)
  {
    hide Heads.HeadKeyOf;
    var rows' := rows[k := next];
    QuietHeadsAlike(rows[k], next);
    QuietKeepsHeads(heads, rows, k, next);
    forall h ensures Heads.Get(heads, h) == Heads.HeadAfter(heads, rows, rows', h) {
      assert Heads.Entered(rows, rows', h) == {} && Heads.Left(rows, rows', h) == {};
    }
  }

  lemma NothingFollows(heads: Heads.Heads, rows: map<RowKey, Resource>)
    requires Heads.Sound(heads, rows)
    ensures Heads.Follows(heads, rows, rows, heads)
  {
    hide Heads.HeadKeyOf, Heads.EligibleRow;
  }

  lemma QuietHeadsAlike(r: Resource, next: Resource)
    requires Quiet(r, next)
    ensures Heads.HeadKeyOf(next) == Heads.HeadKeyOf(r)
  {
  }

  lemma ActivityKeepsConsistent(db: Database, k: RowKey, at: int)
    requires Consistent(db) && k in db.state.resources
    ensures Consistent(db.(state := db.state.(resources :=
                                              db.state.resources[k := AdvanceActivity(db.state.resources[k], at)])))
  {
    hide ValidState, Admission.IndexesMatch, Heads.Sound;
    var next := AdvanceActivity(db.state.resources[k], at);
    QuietKeepsRows(db.state, k, next);
    QuietKeepsHeads(db.heads, db.state.resources, k, next);
    SameChargesSameIndexes(db.capacity, db.mounts, db.state.resources, k, next);
  }

  lemma SameChargesSameIndexes(capacity: map<Admission.Counter, int>, mounts: map<Admission.MountKey, RowKey>,
                               rows: map<RowKey, Resource>, k: RowKey, next: Resource)
    requires Admission.IndexesMatch(capacity, mounts, rows) && k in rows
             && Admission.Charges(rows[k]) == Admission.Charges(next)
    requires Admission.CountsSandbox(next) == Admission.CountsSandbox(rows[k])
    requires Admission.CountsSandbox(next) ==> next.mounts == rows[k].mounts && next.projectId == rows[k].projectId
    ensures Admission.IndexesMatch(capacity, mounts, rows[k := next])
  {
    hide Admission.Charges, Admission.NoRepeat;
    var rows' := rows[k := next];
    forall c ensures Admission.Charged(rows', c) == Admission.Charged(rows, c) {
    }
    forall j, m | j in rows ensures Admission.Attaches(rows'[j], m) == Admission.Attaches(rows[j], m) {
    }
  }

  // ---------- The row-scoped transaction refines the whole-state one ----------

  /** The outcome of a transaction is determined: same state, same indexes up to zero counters. */
  lemma BecomesDetermined(db: Database, a: Database, b: Database, s: State)
    requires Becomes(db, a, s) && Becomes(db, b, s)
    ensures a.state == b.state && a.mounts == b.mounts && a.heads == b.heads
    ensures forall c :: Admission.Read(a.capacity, c) == Admission.Read(b.capacity, c)
  {
    hide ValidState, Admission.IndexesMatch, Heads.Sound, Heads.HeadAfter;
    Admission.IndexesDetermined(a.capacity, a.mounts, b.capacity, b.mounts, s.resources);
    forall k ensures (k in a.heads <==> k in b.heads) && (k in a.heads ==> a.heads[k] == b.heads[k]) {
      assert Heads.Get(a.heads, k) == Heads.Get(b.heads, k);
    }
  }

  /** For a callback that decides and edits within its scope: whenever the row-scoped transaction commits,
      the whole-state transaction would commit too, with the very same outcome. */
  lemma UpdateRowsRefinesUpdate(scope: Scope, db: Database, plan: State -> Option<seq<Edit>>, a: Database, b: Database)
    requires Consistent(db) && Counted(db.state.events) && Counted(Slice(scope, db.state).events)
    requires plan(db.state) == plan(Slice(scope, db.state)) && plan(db.state).Some?
    requires forall i | 0 <= i < |plan(db.state).value| :: Declared(plan(db.state).value[i], scope)
    requires var out := ApplyEdits(Slice(scope, db.state), plan(db.state).value);
             CommitsRows(scope, db.state, Some(out)) && Becomes(db, a, Merge(db.state, Slice(scope, db.state), out))
    ensures Commits(Some(ApplyEdits(db.state, plan(db.state).value)))
    ensures Becomes(db, b, ApplyEdits(db.state, plan(db.state).value)) ==>
              && a.state == b.state && a.mounts == b.mounts && a.heads == b.heads
              && forall c :: Admission.Read(a.capacity, c) == Admission.Read(b.capacity, c)
  {
    hide ValidState, Admission.IndexesMatch, Admission.SingleMounts, Heads.Sound, Heads.Follows, Merge, Slice,
         ScopedChanges, ValidScope, ApplyEdits, Declared;
    var edits := plan(db.state).value;
    EditsAreLocal(scope, db.state, edits);
    CommitValid(scope, db.state, ApplyEdits(Slice(scope, db.state), edits));
    if Becomes(db, b, ApplyEdits(db.state, edits)) {
      BecomesDetermined(db, a, b, ApplyEdits(db.state, edits));
    }
  }

  // ---------- Any sequence of transactions ----------

  datatype Transaction =
    | Whole(fn: Callback)
    | Scoped(scope: Scope, fn: Callback)
    | Activity(projectId: string, sandboxId: string, at: int)
    | AppendOne(event: Event)
    | Reopen

  /** What a transaction makes of the tables; one that is refused leaves them alone. */
  ghost function StateAfter(tx: Transaction, s: State): State {
    match tx
    case Whole(fn) => if Commits(fn(s)) then fn(s).value else s
    case Scoped(scope, fn) =>
      var slice := Slice(scope, s);
      if CommitsRows(scope, s, fn(slice)) then Merge(s, slice, fn(slice).value) else s
    case Activity(p, id, at) =>
      var k := RowKey(SandboxKind, p, id);
      if k in s.resources then s.(resources := s.resources[k := AdvanceActivity(s.resources[k], at)]) else s
    case AppendOne(event) =>
      if RowKey(SandboxKind, event.projectId, event.resourceId) in s.resources && WritableEvent(event)
         && Counted(s.events) then
        s.(events := Appended(s.events, Stamped(s, event)))
      else s
    case Reopen => s
  }

  lemma StateStaysValid(tx: Transaction, s: State)
    requires ValidState(s)
    ensures ValidState(StateAfter(tx, s))
  {
    hide ValidState, Admission.SingleMounts, Merge, Slice, ScopedChanges, ValidScope, Appended, AdvanceActivity;
    match tx
    case Whole(fn) =>
    case Scoped(scope, fn) =>
      var after := fn(Slice(scope, s));
      if CommitsRows(scope, s, after) {
        CommitValid(scope, s, after.value);
      }
    case Activity(p, id, at) =>
      var k := RowKey(SandboxKind, p, id);
      if k in s.resources {
        ActivityIsQuiet(s.resources[k], at);
        QuietKeepsRows(s, k, AdvanceActivity(s.resources[k], at));
      }
    case AppendOne(event) =>
      if WritableEvent(event) {
        StampedWritable(s, event);
        AppendKeepsValid(s, Stamped(s, event));
      }
    case Reopen =>
  }

  lemma ActivityIsQuiet(r: Resource, at: int)
    ensures Quiet(r, AdvanceActivity(r, at))
  {
  }

  /** A row's recorded activity. */
  function ActiveAt(s: State, k: RowKey): Option<int> {
    if k in s.resources && s.resources[k].Sandbox? then Some(s.resources[k].lastActiveAt) else None
  }

  lemma QuietActivity(tx: Transaction, s: State, k: RowKey)
    requires !tx.Whole? && !tx.Scoped? && ActiveAt(s, k).Some?
    ensures ActiveAt(StateAfter(tx, s), k).Some? && ActiveAt(s, k).value <= ActiveAt(StateAfter(tx, s), k).value
  {
    hide AdvanceActivity, Appended, WritableEvent, Counted;
    if tx.Activity? && k == RowKey(SandboxKind, tx.projectId, tx.sandboxId) {
      ActivityExactly(s.resources[k], tx.at);
    }
  }

  /** The databases a sequence of transactions goes through: the tables as each transaction says, the recovery
      index following them. What the admission indexes hold is not part of this. */
  ghost predicate IsHistory(txs: seq<Transaction>, history: seq<Database>) {
    && |history| == |txs| + 1
    && forall i | 0 <= i < |txs| ::
         && history[i + 1].state == StateAfter(txs[i], history[i].state)
         && Heads.Follows(history[i].heads, history[i].state.resources, history[i + 1].state.resources,
                          history[i + 1].heads)
  }

  /** The admission indexes are those a full rebuild from the rows would give. */
  ghost predicate AsRebuilt(db: Database) {
    forall capacity, mounts | Admission.IndexesMatch(capacity, mounts, db.state.resources) ::
      db.mounts == mounts && forall c :: Admission.Read(db.capacity, c) == Admission.Read(capacity, c) >= 0
  }

  lemma ConsistentAsRebuilt(db: Database)
    requires Consistent(db)
    ensures AsRebuilt(db)
  {
    hide ValidState, Admission.MountsMatch, Admission.SingleMounts, Heads.Sound, Admission.Charged;
    forall capacity, mounts | Admission.IndexesMatch(capacity, mounts, db.state.resources)
      ensures db.mounts == mounts && forall c :: Admission.Read(db.capacity, c) == Admission.Read(capacity, c) >= 0
    {
      Admission.IndexesDetermined(db.capacity, db.mounts, capacity, mounts, db.state.resources);
    }
  }

  lemma {:induction false} HistoryValid(txs: seq<Transaction>, history: seq<Database>, i: nat)
    requires IsHistory(txs, history) && i < |history| && ValidState(history[0].state)
    ensures ValidState(history[i].state)
  {
    hide ValidState, StateAfter, Heads.Follows;
    if i > 0 {
      HistoryValid(txs, history, i - 1);
      StateStaysValid(txs[i - 1], history[i - 1].state);
      assert history[i - 1 + 1].state == StateAfter(txs[i - 1], history[i - 1].state);
    }
  }

  /** However recordings arrive, and whatever times they carry, recorded activity never goes back. */
  lemma {:induction false} HistoryActivity(txs: seq<Transaction>, history: seq<Database>, i: nat, j: nat, k: RowKey)
    requires IsHistory(txs, history) && i <= j < |history| && ActiveAt(history[i].state, k).Some?
    requires forall t | i <= t < j :: !txs[t].Whole? && !txs[t].Scoped?
    ensures ActiveAt(history[j].state, k).Some?
    ensures ActiveAt(history[i].state, k).value <= ActiveAt(history[j].state, k).value
    decreases j
  {
    hide StateAfter, Heads.Follows, ActiveAt;
    if i < j {
      HistoryActivity(txs, history, i, j - 1, k);
      QuietActivity(txs[j - 1], history[j - 1].state, k);
      assert history[j - 1 + 1].state == StateAfter(txs[j - 1], history[j - 1].state);
    }
  }

  ghost function RowsOf(history: seq<Database>): seq<Heads.Rows> {
    seq(|history|, i requires 0 <= i < |history| => history[i].state.resources)
  }

  ghost function HeadsOf(history: seq<Database>): seq<Heads.Heads> {
    seq(|history|, i requires 0 <= i < |history| => history[i].heads)
  }

  /** What is proved of the recovery index over runs holds of every sequence of transactions. */
  lemma HistoryOfHeads(txs: seq<Transaction>, history: seq<Database>)
    requires IsHistory(txs, history) && ValidState(history[0].state)
    ensures Heads.IsRun(RowsOf(history), HeadsOf(history))
  {
    hide ValidState, StateAfter, Heads.Follows;
    forall t | 0 <= t < |history| ensures ValidRows(history[t].state.resources) {
      HistoryValid(txs, history, t);
      ValidStateRows(history[t].state);
    }
  }

  method Reindex(store: SqlStore)
    requires Consistent(store.Contents())
    modifies store.index
    ensures Consistent(store.Contents()) && store.state == old(store.state)
            && store.recovery.heads == old(store.recovery.heads)
  {
    hide ValidState, Admission.IndexesMatch, Heads.Sound;
    ValidStateRows(store.state);
    Admission.MatchesSingle(store.index.capacity, store.index.mounts, store.state.resources);
    var ok := store.index.Rebuild(store.state.resources);
  }

  /** One transaction. */
  method Perform(store: SqlStore, tx: Transaction)
    requires Consistent(store.Contents())
    modifies store, store.index, store.recovery
    ensures Consistent(store.Contents()) && store.state == StateAfter(tx, old(store.state))
    ensures Heads.Follows(old(store.recovery.heads), old(store.state).resources, store.state.resources,
                          store.recovery.heads)
  {
    hide ValidState, Admission.IndexesMatch, Heads.Sound, Heads.Follows, Commits, CommitsRows, Merge, Slice, Appended,
         AdvanceActivity, WritableEvent;
    ValidStateRows(store.state);
    NothingFollows(store.recovery.heads, store.state.resources);
    match tx
    case Whole(fn) => var committed := store.Update(fn);
    case Scoped(scope, fn) => var committed := store.UpdateRows(scope, fn);
    case Activity(p, id, at) => var r := store.RecordSandboxActivity(p, id, at);
    case AppendOne(event) => var committed := store.AppendSandboxEvent(event);
    case Reopen => Reindex(store);
  }

  /** After every transaction of any sequence, committed or refused, the tables are as the transactions say, every
      index is consistent with them, and the counters and mounts are what a rebuild from the rows would give. */
  method PerformAll(store: SqlStore, txs: seq<Transaction>) returns (history: seq<Database>)
    requires Consistent(store.Contents())
    modifies store, store.index, store.recovery
    ensures IsHistory(txs, history) && history[0] == old(store.Contents()) && history[|txs|] == store.Contents()
    ensures forall i | 0 <= i <= |txs| :: Consistent(history[i]) && AsRebuilt(history[i])
    ensures Heads.IsRun(RowsOf(history), HeadsOf(history))
  {
    hide ValidState, Admission.IndexesMatch, Heads.Sound, Heads.Follows, StateAfter, AsRebuilt;
    history := [store.Contents()];
    ConsistentAsRebuilt(store.Contents());
    for i := 0 to |txs|
      invariant IsHistory(txs[..i], history) && history[0] == old(store.Contents()) && history[i] == store.Contents()
      invariant forall j | 0 <= j <= i :: Consistent(history[j]) && AsRebuilt(history[j])
    {
      Perform(store, txs[i]);
      ConsistentAsRebuilt(store.Contents());
      history := history + [store.Contents()];
    }
    assert txs[..|txs|] == txs;
    HistoryOfHeads(txs, history);
  }

  /** What a rebuild from the rows gives, and that it is what the store has. */
  method CompareWithRebuild(store: SqlStore) returns (capacity: map<Admission.Counter, int>,
                                                      mounts: map<Admission.MountKey, RowKey>)
    requires Consistent(store.Contents())
    ensures Admission.IndexesMatch(capacity, mounts, store.state.resources)
    ensures store.index.mounts == mounts && forall c :: Admission.Read(store.index.capacity,
                                                                       c) == Admission.Read(capacity, c)
  {
    hide ValidState, Admission.IndexesMatch, Heads.Sound;
    ValidStateRows(store.state);
    Admission.MatchesSingle(store.index.capacity, store.index.mounts, store.state.resources);
    var tables := new Admission.Tables();
    var ok := tables.Rebuild(store.state.resources);
    Admission.IndexesDetermined(store.index.capacity, store.index.mounts, tables.capacity, tables.mounts,
                                store.state.resources);
    return tables.capacity, tables.mounts;
  }
}
