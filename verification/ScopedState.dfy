/** Row-scoped transactions (internal/store/sqlite_scoped.go): a callback sees a slice of the state, and
    the checks on what it returns keep the invariants of rows that were never loaded. */
module ScopedState {
  import opened Identifiers
  import opened Records

  datatype Scope = Scope(rows: set<RowKey>, claims: set<ClaimKey>, streams: set<Stream>)

  predicate ValidScope(scope: Scope) {
    && (forall k | k in scope.rows :: SafeName(k.projectId) && ValidId(k.id))
    && (forall c | c in scope.claims :: SafeName(c.projectId) && ValidId(c.kind) && ValidId(c.key))
    && (forall t | t in scope.streams :: SafeName(t.projectId) && ValidId(t.resourceId))
  }

  /** The rows a claim brings along: its operation, and whatever resource that operation is about. */
  predicate Replays(s: State, c: ClaimKey, k: RowKey) {
    && c in s.claims
    && var o := OperationKey(c.projectId, s.claims[c].operationId);
       (k == o || (o in s.resources && s.resources[o].Operation?
                   && k.kind != OperationKind && k.projectId == c.projectId && k.id == s.resources[o].resourceId))
  }

  predicate IsTail(events: map<EventKey, Event>, k: EventKey) {
    k in events && forall q | q in events && q.stream == k.stream :: q.sequence <= k.sequence
  }

  function Slice(scope: Scope, s: State): State {
    State(map k | k in s.resources && (k in scope.rows || exists c | c in scope.claims :: Replays(s, c, k)) ::
          s.resources[k],
          map c | c in s.claims && c in scope.claims :: s.claims[c],
          map k | k in s.events && k.stream in scope.streams && IsTail(s.events, k) :: s.events[k])
  }

  /** What a commit does to the whole state: the slice's changes, and nothing else. */
  function Merge(s: State, before: State, after: State): State {
    State(Overlay(s.resources, before.resources, after.resources),
          Overlay(s.claims, before.claims, after.claims),
          Overlay(s.events, before.events, after.events))
  }

  // ---------- The checks ----------

  predicate SameIdentity(a: Resource, b: Resource) {
    && a.Operation? && b.Operation?
    && a.projectId == b.projectId && a.id == b.id && a.kind == b.kind && a.idempotencyKey == b.idempotencyKey
    && a.createdAt == b.createdAt
  }

  ghost predicate RowsDeclared(scope: Scope, before: State, after: State) {
    forall k | k in Diff(before.resources, after.resources) :: k in scope.rows
  }

  ghost predicate OperationsKept(before: State, after: State) {
    forall k | k in before.resources && k.kind == OperationKind ::
      k in after.resources && SameIdentity(before.resources[k], after.resources[k])
  }

  ghost predicate ClaimsKept(scope: Scope, before: State, after: State) {
    && (forall c | c in before.claims :: c in after.claims && after.claims[c] == before.claims[c])
    && (forall c | c in after.claims && c !in before.claims :: c in scope.claims)
  }

  /** The last sequence of a stream in a slice; 0 when it has none. */
  ghost predicate LastIs(events: map<EventKey, Event>, t: Stream, last: int) {
    && (forall k | k in events && k.stream == t :: k.sequence <= last)
    && (EventKey(t, last) in events || (last == 0 && forall k | k in events :: k.stream != t))
  }

  /** New events continue their streams without a gap. */
  ghost predicate Continues(before: map<EventKey, Event>, after: map<EventKey, Event>, t: Stream) {
    forall k, last | k in after && k !in before && k.stream == t && LastIs(before, t, last) ::
      k.sequence > last && (k.sequence == last + 1 || EventKey(t, k.sequence - 1) in after)
  }

  ghost predicate HistoryKept(scope: Scope, before: State, after: State) {
    && (forall k | k in before.events :: k in after.events && after.events[k] == before.events[k])
    && (forall k | k in after.events && k !in before.events :: k.stream in scope.streams)
    && (forall t | t in scope.streams :: Continues(before.events, after.events, t))
  }

  ghost predicate ScopedChanges(scope: Scope, before: State, after: State) {
    RowsDeclared(scope, before, after) && OperationsKept(before, after) && ClaimsKept(scope, before, after)
    && HistoryKept(scope, before, after)
  }

  /** Every stream counts from 1 without a gap. */
  ghost predicate GapFree(events: map<EventKey, Event>) {
    forall k | k in events && k.sequence != 1 :: k.sequence > 1 && EventKey(k.stream, k.sequence - 1) in events
  }

  // ---------- Maps that differ ----------

  lemma OverlayAt<K(!new), V>(base: map<K, V>, before: map<K, V>, after: map<K, V>, k: K)
    ensures k in Overlay(base, before, after) <==> if k in Diff(before, after) then k in after else k in base
    ensures k in Overlay(base, before, after) ==>
              Overlay(base, before, after)[k] == if k in Diff(before, after) then after[k] else base[k]
  {
  }

  // ---------- The slice ----------

  lemma SliceRows(scope: Scope, s: State, k: RowKey)
    ensures k in Slice(scope, s).resources ==> k in s.resources && Slice(scope, s).resources[k] == s.resources[k]
    ensures k in scope.rows && k in s.resources ==> k in Slice(scope, s).resources
  {
  }

  lemma SliceClaimsBacked(scope: Scope, s: State, c: ClaimKey)
    requires ValidClaims(s.resources, s.claims) && c in Slice(scope, s).claims
    ensures c in s.claims && s.claims[c] == Slice(scope, s).claims[c]
    ensures Backed(Slice(scope, s).resources, c, s.claims[c])
  {
    hide ValidDigest, IsTail;
    var o := OperationKey(c.projectId, s.claims[c].operationId);
    assert Backed(s.resources, c, s.claims[c]);
    assert Replays(s, c, o);
  }

  /** A slice of a valid state is valid, so the load-time validation never fails. */
  lemma SliceValid(scope: Scope, s: State)
    requires ValidState(s)
    ensures ValidState(Slice(scope, s))
  {
    hide ValidDigest, SafeName, ValidId, Blank, IsTail, Backed, Replays;
    forall c | c in Slice(scope, s).claims ensures Backed(Slice(scope, s).resources, c, Slice(scope, s).claims[c]) {
      SliceClaimsBacked(scope, s, c);
    }
  }

  // ---------- What a commit keeps ----------

  /** The frame: rows and streams outside the scope, every claim and every event already there stay; an
      operation already there keeps its identity and an undeclared one its whole row. */
  lemma CommitFrame(scope: Scope, s: State, after: State)
    requires ValidState(s) && ScopedChanges(scope, Slice(scope, s), after)
    ensures var s' := Merge(s, Slice(scope, s), after);
            && (forall k | k !in scope.rows ::
                (k in s.resources <==> k in s'.resources)
                && (k in s.resources ==> s'.resources[k] == s.resources[k]))
            && (forall k | k in s.resources && k.kind == OperationKind ::
                k in s'.resources
                && SameIdentity(s.resources[k], s'.resources[k]))
            && (forall c | c in s.claims :: c in s'.claims && s'.claims[c] == s.claims[c])
            && (forall c | c in s'.claims && c !in s.claims :: c in scope.claims)
            && (forall k | k in s.events :: k in s'.events && s'.events[k] == s.events[k])
            && (forall k | k in s'.events && k !in s.events :: k.stream in scope.streams)
  {
    hide ValidDigest, SafeName, ValidId, Blank, Backed, Diff, Overlay, Slice, ValidState, ScopedChanges;
    var before := Slice(scope, s);
    forall k | k !in scope.rows
      ensures (k in s.resources <==> k in Merge(s, before, after).resources)
              && (k in s.resources ==> Merge(s, before, after).resources[k] == s.resources[k])
    {
      UndeclaredRowStays(scope, s, after, k);
    }
    forall k | k in s.resources && k.kind == OperationKind
      ensures k in Merge(s, before, after).resources
              && SameIdentity(s.resources[k], Merge(s, before, after).resources[k])
    {
      OperationStays(scope, s, after, k);
    }
    forall c ensures c in s.claims ==>
        c in Merge(s, before, after).claims
        && Merge(s, before, after).claims[c] == s.claims[c]
             ensures c in Merge(s, before, after).claims && c !in s.claims ==> c in scope.claims
    {
      ClaimStays(scope, s, after, c);
    }
    forall k ensures k in s.events ==>
        k in Merge(s, before, after).events
        && Merge(s, before, after).events[k] == s.events[k]
             ensures k in Merge(s, before, after).events && k !in s.events ==> k.stream in scope.streams
    {
      EventStays(scope, s, after, k);
    }
  }

  lemma UndeclaredRowStays(scope: Scope, s: State, after: State, k: RowKey)
    requires ScopedChanges(scope, Slice(scope, s), after) && k !in scope.rows
    ensures var s' := Merge(s, Slice(scope, s), after);
            (k in s.resources <==> k in s'.resources) && (k in s.resources ==> s'.resources[k] == s.resources[k])
  {
    hide Diff, Overlay, Slice, HistoryKept, ClaimsKept, OperationsKept;
    OverlayAt(s.resources, Slice(scope, s).resources, after.resources, k);
  }

  lemma OperationStays(scope: Scope, s: State, after: State, k: RowKey)
    requires ValidState(s) && ScopedChanges(scope, Slice(scope, s), after) && k in s.resources
             && k.kind == OperationKind
    ensures var s' := Merge(s, Slice(scope, s), after);
            k in s'.resources
            && SameIdentity(s.resources[k], s'.resources[k])
  {
    hide Overlay, Slice, HistoryKept, ClaimsKept, ValidDigest, SafeName, ValidId, Blank, ValidEvents, ValidClaims;
    OverlayAt(s.resources, Slice(scope, s).resources, after.resources, k);
    SliceRows(scope, s, k);
    assert ValidRow(k, s.resources[k]);
  }

  /** What a callback gets to see: the declared rows and claims, each claim's operation and the resource that
      operation is about, and the last event of each declared stream. */
  lemma SliceExactly(scope: Scope, s: State, k: RowKey, c: ClaimKey, e: EventKey)
    ensures var slice := Slice(scope, s);
            && (k in slice.resources <==>
                  && k in s.resources
                  && (k in scope.rows
                      || exists d | d in scope.claims && d in s.claims ::
                           var o := RowKey(OperationKind, d.projectId, s.claims[d].operationId);
                           k == o || (o in s.resources && s.resources[o].Operation? && k.kind != OperationKind
                                      && k.projectId == d.projectId && k.id == s.resources[o].resourceId)))
            && (k in slice.resources ==> slice.resources[k] == s.resources[k])
            && (c in slice.claims <==> c in s.claims && c in scope.claims)
            && (c in slice.claims ==> slice.claims[c] == s.claims[c])
            && (e in slice.events <==>
                  && e in s.events && e.stream in scope.streams
                  && forall f | f in s.events && f.stream == e.stream :: f.sequence <= e.sequence)
            && (e in slice.events ==> slice.events[e] == s.events[e])
  {
    if d :| d in scope.claims && Replays(s, d, k) {
      assert d in s.claims;
    }
  }

  /** An operation a transaction loaded or not keeps what identifies it: project, id, kind, request key and creation. */
  lemma OperationKeepsIdentity(scope: Scope, s: State, after: State, k: RowKey)
    requires ValidState(s) && ScopedChanges(scope, Slice(scope, s), after)
    requires k in s.resources && s.resources[k].Operation?
    ensures var s' := Merge(s, Slice(scope, s), after);
            && k in s'.resources && s'.resources[k].Operation?
            && var o, o' := s.resources[k], s'.resources[k];
               && o'.projectId == o.projectId && o'.id == o.id && o'.kind == o.kind
               && o'.idempotencyKey == o.idempotencyKey && o'.createdAt == o.createdAt
  {
    hide Slice, Merge, ScopedChanges, ValidClaims, ValidEvents, SafeName, ValidId, NoControl;
    assert ValidRow(k, s.resources[k]);
    OperationStays(scope, s, after, k);
  }

  /** A claim a transaction adds has names that no separator can blur: its stored key belongs to it alone. */
  lemma NewClaimIsUnambiguous(scope: Scope, s: State, after: State, c: ClaimKey, d: ClaimKey)
    requires ValidScope(scope) && ScopedChanges(scope, Slice(scope, s), after)
    requires c in Merge(s, Slice(scope, s), after).claims && c !in s.claims
    requires d in Merge(s, Slice(scope, s), after).claims && d !in s.claims
    ensures IdempotencyKey(c.projectId, c.kind, c.key) == IdempotencyKey(d.projectId, d.kind, d.key) ==> c == d
  {
    hide Slice, Merge, ScopedChanges, IdempotencyKey, SafeName;
    ClaimStays(scope, s, after, c);
    ClaimStays(scope, s, after, d);
    SafeNameHasNoNul(c.projectId);
    SafeNameHasNoNul(d.projectId);
    IdempotencyKeyInjective(c.projectId, c.kind, c.key, d.projectId, d.kind, d.key);
  }

  lemma ClaimStays(scope: Scope, s: State, after: State, c: ClaimKey)
    requires ScopedChanges(scope, Slice(scope, s), after)
    ensures var s' := Merge(s, Slice(scope, s), after);
            (c in s.claims ==> c in s'.claims && s'.claims[c] == s.claims[c])
            && (c in s'.claims && c !in s.claims ==> c in scope.claims)
  {
    hide Overlay, HistoryKept, RowsDeclared, OperationsKept, Replays, IsTail;
    OverlayAt(s.claims, Slice(scope, s).claims, after.claims, c);
  }

  lemma TailIsLast(scope: Scope, s: State, t: Stream, last: int)
    requires t in scope.streams && LastIs(s.events, t, last)
    ensures LastIs(Slice(scope, s).events, t, last)
  {
    hide Replays;
    var part := Slice(scope, s).events;
    forall k | k in part && k.stream == t ensures k.sequence <= last {
    }
    if EventKey(t, last) in s.events {
      assert IsTail(s.events, EventKey(t, last));
    }
  }

  lemma {:induction false} LastExists(events: map<EventKey, Event>, t: Stream)
    requires forall k | k in events :: k.sequence >= 1
    ensures exists last :: LastIs(events, t, last)
    decreases |events|
  {
    if k :| k in events && k.stream == t {
      var rest := events - {k};
      LastExists(rest, t);
      var last :| LastIs(rest, t, last);
      assert LastIs(events, t, if EventKey(t, last) !in rest || k.sequence > last then k.sequence else last);
    } else {
      assert LastIs(events, t, 0);
    }
  }

  /** The sequence a stream has reached. */
  ghost function Last(events: map<EventKey, Event>, t: Stream): (last: int)
    requires forall k | k in events :: k.sequence >= 1
    ensures last >= 0
  {
    LastExists(events, t);
    var last :| LastIs(events, t, last);
    last
  }

  lemma LastUnique(events: map<EventKey, Event>, t: Stream, a: int, b: int)
    requires LastIs(events, t, a) && LastIs(events, t, b)
    ensures a == b
  {
    assert EventKey(t, a) in events ==> EventKey(t, a).stream == t;
    assert EventKey(t, b) in events ==> EventKey(t, b).stream == t;
  }

  lemma EventStays(scope: Scope, s: State, after: State, k: EventKey)
    requires ValidState(s) && ScopedChanges(scope, Slice(scope, s), after)
    ensures var s' := Merge(s, Slice(scope, s), after);
            (k in s.events ==> k in s'.events && s'.events[k] == s.events[k])
            && (k in s'.events && k !in s.events ==> k.stream in scope.streams)
  {
    hide Overlay, Slice, RowsDeclared, OperationsKept, ClaimsKept, ValidDigest, SafeName, ValidId, Blank, ValidRows,
         ValidClaims;
    var before := Slice(scope, s);
    OverlayAt(s.events, before.events, after.events, k);
    if k in after.events && k !in before.events && k.stream in scope.streams {
      assert forall q | q in s.events :: ValidEvent(q, s.events[q]);
      LastExists(s.events, k.stream);
      var last :| LastIs(s.events, k.stream, last);
      TailIsLast(scope, s, k.stream, last);
      assert Continues(before.events, after.events, k.stream);
      assert k.sequence > last;
      assert k !in s.events;
    }
  }

  /** Global integrity from local checks: although most rows were never loaded, the merged state is valid;
      in particular every claim, loaded or not, still names its operation. */
  lemma CommitValid(scope: Scope, s: State, after: State)
    requires ValidState(s) && ValidState(after) && ScopedChanges(scope, Slice(scope, s), after)
    ensures ValidState(Merge(s, Slice(scope, s), after))
  {
    hide ValidDigest, SafeName, ValidId, Blank, Backed, Overlay, Diff, Slice, ScopedChanges;
    var before := Slice(scope, s);
    var s' := Merge(s, before, after);
    forall k | k in s'.resources ensures ValidRow(k, s'.resources[k]) {
      OverlayAt(s.resources, before.resources, after.resources, k);
    }
    forall k | k in s'.events ensures ValidEvent(k, s'.events[k]) {
      OverlayAt(s.events, before.events, after.events, k);
    }
    forall c | c in s'.claims ensures Backed(s'.resources, c, s'.claims[c]) {
      if c in s.claims {
        OldClaimBacked(scope, s, after, c);
      } else {
        NewClaimBacked(scope, s, after, c);
      }
    }
  }

  lemma OldClaimBacked(scope: Scope, s: State, after: State, c: ClaimKey)
    requires ValidState(s) && ScopedChanges(scope, Slice(scope, s), after) && c in s.claims
    ensures var s' := Merge(s, Slice(scope, s), after); c in s'.claims && Backed(s'.resources, c, s'.claims[c])
  {
    hide ValidDigest, SafeName, ValidId, Blank, Overlay, Diff, Slice, ScopedChanges;
    ClaimStays(scope, s, after, c);
    assert Backed(s.resources, c, s.claims[c]);
    OperationStays(scope, s, after, OperationKey(c.projectId, s.claims[c].operationId));
  }

  lemma NewClaimBacked(scope: Scope, s: State, after: State, c: ClaimKey)
    requires ValidState(after) && c !in s.claims && c in Merge(s, Slice(scope, s), after).claims
    ensures var s' := Merge(s, Slice(scope, s), after); Backed(s'.resources, c, s'.claims[c])
  {
    hide ValidDigest, SafeName, ValidId, Blank, Overlay, Slice, ValidRows, ValidEvents;
    var before := Slice(scope, s);
    OverlayAt(s.claims, before.claims, after.claims, c);
    assert Backed(after.resources, c, after.claims[c]);
    var o := OperationKey(c.projectId, after.claims[c].operationId);
    OverlayAt(s.resources, before.resources, after.resources, o);
    SliceRows(scope, s, o);
  }

  lemma CommitGapFree(scope: Scope, s: State, after: State)
    requires ValidState(s) && GapFree(s.events) && ScopedChanges(scope, Slice(scope, s), after)
    ensures GapFree(Merge(s, Slice(scope, s), after).events)
  {
    hide ValidDigest, SafeName, ValidId, Blank, Backed, Overlay, Diff, Slice, ScopedChanges, Continues;
    var s' := Merge(s, Slice(scope, s), after);
    forall k | k in s'.events && k.sequence != 1 ensures k.sequence > 1
        && EventKey(k.stream, k.sequence - 1) in s'.events {
      var prior := EventKey(k.stream, k.sequence - 1);
      EventStays(scope, s, after, k);
      EventStays(scope, s, after, prior);
      if k !in s.events {
        NewEventContinues(scope, s, after, k);
      }
    }
  }

  lemma NewEventContinues(scope: Scope, s: State, after: State, k: EventKey)
    requires ValidState(s) && ScopedChanges(scope, Slice(scope, s), after)
    requires k !in s.events && k in Merge(s, Slice(scope, s), after).events && k.sequence != 1
    ensures k.sequence > 1 && EventKey(k.stream, k.sequence - 1) in Merge(s, Slice(scope, s), after).events
  {
    hide ValidDigest, SafeName, ValidId, Blank, Backed, Overlay, Slice, RowsDeclared, OperationsKept, ClaimsKept,
         ValidRows, ValidClaims;
    var before := Slice(scope, s);
    var prior := EventKey(k.stream, k.sequence - 1);
    OverlayAt(s.events, before.events, after.events, k);
    OverlayAt(s.events, before.events, after.events, prior);
    assert forall q | q in s.events :: ValidEvent(q, s.events[q]);
    EventStays(scope, s, after, k);
    EventStays(scope, s, after, prior);
    SliceEvents(scope, s, prior);
    LastExists(s.events, k.stream);
    var last :| LastIs(s.events, k.stream, last);
    TailIsLast(scope, s, k.stream, last);
    assert Continues(before.events, after.events, k.stream);
  }

  lemma SliceEvents(scope: Scope, s: State, k: EventKey)
    ensures k in Slice(scope, s).events ==> k in s.events && Slice(scope, s).events[k] == s.events[k]
  {
    hide IsTail, Replays;
  }

  // ---------- Refinement of the whole-state transaction ----------

  /** What lifecycle callbacks do to a state. */
  datatype Edit = PutRow(row: Resource) | DropRow(key: RowKey) | PutClaim(claimKey: ClaimKey,
        claim: Claim) | Append(event: Event)

  predicate Declared(edit: Edit, scope: Scope) {
    match edit
    case PutRow(row) => KeyOf(row) in scope.rows
    case DropRow(key) => key in scope.rows
    case PutClaim(claimKey, _) => claimKey in scope.claims
    case Append(event) => Stream(event.projectId, event.resourceId) in scope.streams
  }

  ghost predicate Counted(events: map<EventKey, Event>) {
    forall k | k in events :: k.sequence >= 1
  }

  /** Appending takes the next sequence of the event's stream. */
  ghost function Appended(events: map<EventKey, Event>, e: Event): (r: map<EventKey, Event>)
    requires Counted(events)
    ensures Counted(r)
  {
    var t := Stream(e.projectId, e.resourceId);
    var next := Last(events, t) + 1;
    events[EventKey(t, next) := e.(sequence := next)]
  }

  ghost function ApplyEdit(s: State, edit: Edit): (r: State)
    requires Counted(s.events)
    ensures Counted(r.events)
  {
    match edit
    case PutRow(row) => s.(resources := s.resources[KeyOf(row) := row])
    case DropRow(key) => s.(resources := s.resources - {key})
    case PutClaim(claimKey, claim) => s.(claims := s.claims[claimKey := claim])
    case Append(event) => s.(events := Appended(s.events, event))
  }

  ghost function ApplyEdits(s: State, edits: seq<Edit>): (r: State)
    requires Counted(s.events)
    ensures Counted(r.events)
  {
    if edits == [] then s else ApplyEdit(ApplyEdits(s, edits[..|edits| - 1]), edits[|edits| - 1])
  }

  /** `part` shows `whole` at `k`: the same row, or no row. */
  predicate Shows<K, V(==)>(part: map<K, V>, whole: map<K, V>, k: K) {
    if k in whole then k in part && part[k] == whole[k] else k !in part
  }

  lemma OverlayPut<K(!new), V>(base: map<K, V>, before: map<K, V>, after: map<K, V>, k: K, v: V)
    requires Shows(before, base, k)
    ensures Overlay(base, before, after[k := v]) == Overlay(base, before, after)[k := v]
  {
    var a, b := Overlay(base, before, after[k := v]), Overlay(base, before, after)[k := v];
    forall q ensures (q in a <==> q in b) && (q in a ==> a[q] == b[q]) {
      OverlayAt(base, before, after[k := v], q);
      OverlayAt(base, before, after, q);
    }
  }

  lemma OverlayDrop<K(!new), V>(base: map<K, V>, before: map<K, V>, after: map<K, V>, k: K)
    requires Shows(before, base, k)
    ensures Overlay(base, before, after - {k}) == Overlay(base, before, after) - {k}
  {
    var a, b := Overlay(base, before, after - {k}), Overlay(base, before, after) - {k};
    forall q ensures (q in a <==> q in b) && (q in a ==> a[q] == b[q]) {
      OverlayAt(base, before, after - {k}, q);
      OverlayAt(base, before, after, q);
    }
  }

  lemma OverlayNothing<K(!new), V>(base: map<K, V>, before: map<K, V>)
    requires forall k | k in before :: k in base && base[k] == before[k]
    ensures Overlay(base, before, before) == base
  {
  }

  /** The history a slice holds is still there. */
  ghost predicate Extends(before: map<EventKey, Event>, after: map<EventKey, Event>) {
    forall k | k in before :: k in after && after[k] == before[k]
  }

  /** A declared stream is as long in the slice, edited, as in the whole state with those edits. */
  lemma MergedLast(scope: Scope, s: State, after: map<EventKey, Event>, t: Stream)
    requires Counted(s.events) && Counted(after) && t in scope.streams && Extends(Slice(scope, s).events, after)
    ensures Counted(Overlay(s.events, Slice(scope, s).events, after))
    ensures LastIs(Overlay(s.events, Slice(scope, s).events, after), t, Last(after, t))
    ensures Last(s.events, t) <= Last(after, t)
  {
    hide Slice, Overlay;
    var before := Slice(scope, s).events;
    var merged := Overlay(s.events, before, after);
    var m, n := Last(s.events, t), Last(after, t);
    TailIsLast(scope, s, t, m);
    forall k | k in merged ensures k.sequence >= 1 && (k.stream == t ==> k.sequence <= n) {
      OverlayAt(s.events, before, after, k);
    }
    var k := EventKey(t, n);
    OverlayAt(s.events, before, after, k);
    SliceEvents(scope, s, k);
    if n == 0 {
      forall q | q in merged ensures q.stream != t {
        OverlayAt(s.events, before, after, q);
      }
    }
  }

  lemma AppendIsLocal(scope: Scope, s: State, after: State, e: Event)
    requires Counted(s.events) && Counted(after.events) && Declared(Append(e), scope)
             && Extends(Slice(scope, s).events, after.events)
    ensures Counted(Merge(s, Slice(scope, s), after).events)
    ensures Appended(Merge(s, Slice(scope, s), after).events, e) == Merge(s, Slice(scope, s),
          ApplyEdit(after, Append(e))).events
    ensures Extends(Slice(scope, s).events, Appended(after.events, e))
  {
    hide Slice, Overlay, LastIs;
    var before := Slice(scope, s);
    var t := Stream(e.projectId, e.resourceId);
    MergedLast(scope, s, after.events, t);
    var merged := Overlay(s.events, before.events, after.events);
    var n := Last(after.events, t);
    LastUnique(merged, t, Last(merged, t), n);
    var k := EventKey(t, n + 1);
    BeyondLast(after.events, t, k);
    BeyondLast(s.events, t, k);
    SliceEvents(scope, s, k);
    OverlayPut(s.events, before.events, after.events, k, e.(sequence := n + 1));
  }

  lemma BeyondLast(events: map<EventKey, Event>, t: Stream, k: EventKey)
    requires Counted(events) && k.stream == t && k.sequence > Last(events, t)
    ensures k !in events
  {
    assert LastIs(events, t, Last(events, t));
  }

  /** Edits within the declared scope do to the whole state what they do to the slice. */
  lemma {:induction false} EditsAreLocal(scope: Scope, s: State, edits: seq<Edit>)
    requires Counted(s.events) && forall i | 0 <= i < |edits| :: Declared(edits[i], scope)
    ensures Counted(Slice(scope, s).events)
    ensures ApplyEdits(s, edits) == Merge(s, Slice(scope, s), ApplyEdits(Slice(scope, s), edits))
    ensures Extends(Slice(scope, s).events, ApplyEdits(Slice(scope, s), edits).events)
    decreases |edits|
  {
    hide Overlay, IsTail, Replays, Declared;
    var before := Slice(scope, s);
    if edits == [] {
      OverlayNothing(s.resources, before.resources);
      OverlayNothing(s.claims, before.claims);
      OverlayNothing(s.events, before.events);
    } else {
      var init, edit := edits[..|edits| - 1], edits[|edits| - 1];
      EditsAreLocal(scope, s, init);
      EditIsLocal(scope, s, ApplyEdits(before, init), edit);
    }
  }

  lemma EditIsLocal(scope: Scope, s: State, after: State, edit: Edit)
    requires Counted(s.events) && Counted(after.events) && Declared(edit, scope)
             && Extends(Slice(scope, s).events, after.events)
    ensures Counted(Merge(s, Slice(scope, s), after).events)
    ensures ApplyEdit(Merge(s, Slice(scope, s), after), edit) == Merge(s, Slice(scope, s), ApplyEdit(after, edit))
    ensures Extends(Slice(scope, s).events, ApplyEdit(after, edit).events)
  {
    hide Slice, Overlay, Appended;
    var before := Slice(scope, s);
    MergedCounted(scope, s, after.events);
    match edit
    case PutRow(row) =>
      SliceRows(scope, s, KeyOf(row));
      OverlayPut(s.resources, before.resources, after.resources, KeyOf(row), row);
    case DropRow(key) =>
      SliceRows(scope, s, key);
      OverlayDrop(s.resources, before.resources, after.resources, key);
    case PutClaim(claimKey, claim) =>
      SliceClaims(scope, s, claimKey);
      OverlayPut(s.claims, before.claims, after.claims, claimKey, claim);
    case Append(event) =>
      AppendIsLocal(scope, s, after, event);
  }

  lemma SliceClaims(scope: Scope, s: State, c: ClaimKey)
    ensures c in scope.claims ==> Shows(Slice(scope, s).claims, s.claims, c)
  {
    hide IsTail, Replays;
  }

  lemma MergedCounted(scope: Scope, s: State, after: map<EventKey, Event>)
    requires Counted(s.events) && Counted(after)
    ensures Counted(Overlay(s.events, Slice(scope, s).events, after))
  {
    hide Slice, Overlay;
    forall k | k in Overlay(s.events, Slice(scope, s).events, after) ensures k.sequence >= 1 {
      OverlayAt(s.events, Slice(scope, s).events, after, k);
    }
  }

  // ---------- The loops ----------

  function Resources(s: State, keys: set<RowKey>): map<RowKey, Resource> {
    map k | k in keys && k in s.resources :: s.resources[k]
  }

  function ReplayKeys(s: State, c: ClaimKey): set<RowKey>
    requires c in s.claims
  {
    var o := OperationKey(c.projectId, s.claims[c].operationId);
    {o} + if o !in s.resources || !s.resources[o].Operation? then {} else
          set kind | kind in {EnvironmentKind, SandboxKind, CheckpointKind, WorkspaceKind, ConnectorKind}
            :: RowKey(kind, c.projectId, s.resources[o].resourceId)
  }

  lemma ReplayKeysAre(s: State, c: ClaimKey, k: RowKey)
    requires c in s.claims
    ensures k in ReplayKeys(s, c) <==> Replays(s, c, k)
  {
    if Replays(s, c, k) && k != OperationKey(c.projectId, s.claims[c].operationId) {
      assert k == RowKey(k.kind, k.projectId, k.id);
    }
  }

  /** The rows loaded once the claims in `done` have been looked up. */
  function Loaded(scope: Scope, s: State, done: set<ClaimKey>): map<RowKey, Resource> {
    map k | k in s.resources && (k in scope.rows || exists c | c in done :: Replays(s, c, k)) :: s.resources[k]
  }

  lemma LoadedNext(scope: Scope, s: State, done: set<ClaimKey>, c: ClaimKey)
    ensures Loaded(scope, s, done + {c}) == if c in s.claims
            then Loaded(scope, s, done) + Resources(s, ReplayKeys(s, c)) else Loaded(scope, s, done)
  {
    hide ReplayKeys, Replays;
    if c in s.claims {
      forall k ensures k in ReplayKeys(s, c) <==> Replays(s, c, k) {
        ReplayKeysAre(s, c, k);
      }
    } else {
      NoClaimNoReplay(s, c);
    }
  }

  lemma NoClaimNoReplay(s: State, c: ClaimKey)
    requires c !in s.claims
    ensures forall k :: !Replays(s, c, k)
  {
  }

  method LoadRows(scope: Scope, s: State) returns (rows: map<RowKey, Resource>, claims: map<ClaimKey, Claim>)
    ensures rows == Loaded(scope, s, scope.claims)
    ensures claims == map c | c in s.claims && c in scope.claims :: s.claims[c]
  {
    hide ReplayKeys, Replays, Loaded;
    rows, claims := Resources(s, scope.rows), map[];
    var pending := scope.claims;
    assert scope.claims - pending == {};
    assert rows == Loaded(scope, s, {}) by {
      NothingLoaded(scope, s);
    }
    while pending != {}
      invariant pending <= scope.claims
      invariant claims == map c | c in s.claims && c in scope.claims - pending :: s.claims[c]
      invariant rows == Loaded(scope, s, scope.claims - pending)
      decreases pending
    {
      var c :| c in pending;
      LoadedNext(scope, s, scope.claims - pending, c);
      assert scope.claims - (pending - {c}) == scope.claims - pending + {c};
      if c in s.claims {
        claims := claims[c := s.claims[c]];
        rows := rows + Resources(s, ReplayKeys(s, c));
      }
      pending := pending - {c};
    }
    assert scope.claims - pending == scope.claims;
  }

  lemma NothingLoaded(scope: Scope, s: State)
    ensures Resources(s, scope.rows) == Loaded(scope, s, {})
  {
    hide Replays;
  }

  /** Loads the declared rows, what declared claims replay, and the tails of declared streams. */
  method LoadMutationState(scope: Scope, s: State) returns (slice: State)
    ensures slice == Slice(scope, s)
  {
    hide Replays, IsTail;
    var rows, claims := LoadRows(scope, s);
    var events: map<EventKey, Event> := map[];
    var streams := scope.streams;
    while streams != {}
      invariant streams <= scope.streams
      invariant events == map k | k in s.events && k.stream in scope.streams - streams
                && IsTail(s.events, k) :: s.events[k]
      decreases streams
    {
      var t :| t in streams;
      events := events + map k | k in s.events && k.stream == t && IsTail(s.events, k) :: s.events[k];
      streams := streams - {t};
    }
    slice := State(rows, claims, events);
  }

  method RowsAreDeclared(scope: Scope, before: State, after: State) returns (ok: bool)
    ensures ok <==> RowsDeclared(scope, before, after) && OperationsKept(before, after)
  {
    hide Diff, SameIdentity;
    var changed := Diff(before.resources, after.resources);
    var pending := changed;
    while pending != {}
      invariant pending <= changed && forall k | k in changed && k !in pending :: k in scope.rows
      decreases pending
    {
      var k :| k in pending;
      if k !in scope.rows {
        return false;
      }
      pending := pending - {k};
    }
    var operations := set k | k in before.resources && k.kind == OperationKind;
    pending := operations;
    while pending != {}
      invariant pending <= operations
      invariant forall k | k in operations && k !in pending ::
                k in after.resources
                && SameIdentity(before.resources[k], after.resources[k])
      decreases pending
    {
      var k :| k in pending;
      if k !in after.resources || !SameIdentity(before.resources[k], after.resources[k]) {
        return false;
      }
      pending := pending - {k};
    }
    return true;
  }

  method ClaimsAreKept(scope: Scope, before: State, after: State) returns (ok: bool)
    ensures ok <==> ClaimsKept(scope, before, after)
  {
    var pending := before.claims.Keys;
    while pending != {}
      invariant pending <= before.claims.Keys
      invariant forall c | c in before.claims && c !in pending ::
                c in after.claims
                && after.claims[c] == before.claims[c]
      decreases pending
    {
      var c :| c in pending;
      if c !in after.claims || after.claims[c] != before.claims[c] {
        return false;
      }
      pending := pending - {c};
    }
    pending := after.claims.Keys;
    while pending != {}
      invariant pending <= after.claims.Keys
      invariant forall c | c in after.claims && c !in pending && c !in before.claims :: c in scope.claims
      decreases pending
    {
      var c :| c in pending;
      if c !in before.claims && c !in scope.claims {
        return false;
      }
      pending := pending - {c};
    }
    return true;
  }

  /** Counts a stream's new events off from the last one already there. */
  method StreamContinues(before: map<EventKey, Event>, after: map<EventKey, Event>, t: Stream, last: int)
    returns (ok: bool)
    requires LastIs(before, t, last) && Counted(after) && forall k | k in before :: k in after
    ensures ok <==> Continues(before, after, t)
  {
    var added := set k | k in after && k !in before && k.stream == t;
    var pending, next := added, last + 1;
    while pending != {}
      invariant pending <= added && next > last
      invariant forall k | k in added && k !in pending :: last < k.sequence < next
      invariant forall q | last < q < next :: EventKey(t, q) in added && EventKey(t, q) !in pending
      decreases pending
    {
      var k := EventKey(t, next);
      if k !in pending {
        GapFound(before, after, t, last, added, pending, next);
        return false;
      }
      pending, next := pending - {k}, next + 1;
    }
    forall k, n | k in after && k !in before && k.stream == t && LastIs(before, t, n)
      ensures k.sequence > n && (k.sequence == n + 1 || EventKey(t, k.sequence - 1) in after)
    {
      LastUnique(before, t, n, last);
      assert k in added;
      assert k.sequence - 1 > last ==> EventKey(t, k.sequence - 1) in added;
    }
    return true;
  }

  lemma GapFound(before: map<EventKey, Event>, after: map<EventKey, Event>, t: Stream, last: int,
                 added: set<EventKey>, pending: set<EventKey>, next: int)
    requires LastIs(before, t, last) && added == (set k | k in after && k !in before && k.stream == t)
    requires pending <= added && pending != {} && next > last && EventKey(t, next) !in pending
    requires forall k | k in added && k !in pending :: last < k.sequence < next
    requires forall q | last < q < next :: EventKey(t, q) in added && EventKey(t, q) !in pending
    ensures !Continues(before, after, t)
  {
    var k := Earliest(pending);
    assert k.stream == t && k == EventKey(t, k.sequence);
    var prior := EventKey(t, k.sequence - 1);
    assert k.sequence > next || k.sequence <= last;
    assert k.sequence > next ==> prior !in pending && prior !in added;
    assert prior in before ==> k.sequence - 1 <= last;
  }

  lemma {:induction false} Earliest(s: set<EventKey>) returns (k: EventKey)
    requires s != {}
    ensures k in s && forall q | q in s :: k.sequence <= q.sequence
    decreases s
  {
    k :| k in s;
    if s != {k} {
      var other := Earliest(s - {k});
      if other.sequence < k.sequence {
        k := other;
      }
    }
  }

  /** At most one event of each stream, as in a slice. */
  predicate OnePerStream(events: map<EventKey, Event>) {
    forall k, q | k in events && q in events && k.stream == q.stream :: k == q
  }

  lemma SliceHasTails(scope: Scope, s: State)
    ensures OnePerStream(Slice(scope, s).events)
  {
    hide Replays;
  }

  /** The sequence of a stream's one event in a slice; 0 when it has none. */
  method LastOf(events: map<EventKey, Event>, t: Stream) returns (last: int)
    requires OnePerStream(events) && Counted(events)
    ensures LastIs(events, t, last)
  {
    var tails := set k | k in events && k.stream == t;
    if tails == {} {
      assert forall k | k in events :: k.stream != t by {
        forall k | k in events ensures k.stream != t {
          assert k !in tails;
        }
      }
      return 0;
    }
    var k :| k in tails;
    assert k == EventKey(t, k.sequence);
    return k.sequence;
  }

  method HistoryIsKept(scope: Scope, before: State, after: State) returns (ok: bool)
    requires OnePerStream(before.events) && Counted(before.events) && Counted(after.events)
    ensures ok <==> HistoryKept(scope, before, after)
  {
    hide Continues;
    var pending := before.events.Keys;
    while pending != {}
      invariant pending <= before.events.Keys
      invariant forall k | k in before.events && k !in pending ::
                k in after.events
                && after.events[k] == before.events[k]
      decreases pending
    {
      var k :| k in pending;
      if k !in after.events || after.events[k] != before.events[k] {
        return false;
      }
      pending := pending - {k};
    }
    pending := after.events.Keys;
    while pending != {}
      invariant pending <= after.events.Keys
      invariant forall k | k in after.events && k !in pending && k !in before.events :: k.stream in scope.streams
      decreases pending
    {
      var k :| k in pending;
      if k !in before.events && k.stream !in scope.streams {
        return false;
      }
      pending := pending - {k};
    }
    var streams := scope.streams;
    while streams != {}
      invariant streams <= scope.streams && forall t | t in scope.streams
                && t !in streams :: Continues(before.events, after.events, t)
      decreases streams
    {
      var t :| t in streams;
      var last := LastOf(before.events, t);
      ok := StreamContinues(before.events, after.events, t, last);
      if !ok {
        return;
      }
      streams := streams - {t};
    }
    return true;
  }

  method ValidateScopedChanges(scope: Scope, before: State, after: State) returns (ok: bool)
    requires OnePerStream(before.events) && Counted(before.events) && Counted(after.events)
    ensures ok <==> ScopedChanges(scope, before, after)
  {
    hide RowsDeclared, OperationsKept, ClaimsKept, HistoryKept;
    ok := RowsAreDeclared(scope, before, after);
    if !ok {
      return;
    }
    ok := ClaimsAreKept(scope, before, after);
    if !ok {
      return;
    }
    ok := HistoryIsKept(scope, before, after);
  }

  /** The service's loop for the next sequence agrees with the stream's length, in any order of visit. */
  method AppendEvent(events: map<EventKey, Event>, event: Event) returns (r: map<EventKey, Event>)
    requires Counted(events) && event.sequence == 0
    ensures r == Appended(events, event)
  {
    var t := Stream(event.projectId, event.resourceId);
    var next, pending := 0, events.Keys;
    while pending != {}
      invariant pending <= events.Keys && next >= 0
      invariant forall k | k in events && k !in pending && k.stream == t :: k.sequence < next
      invariant next > 0 ==> EventKey(t, next - 1) in events
      decreases pending
    {
      var k :| k in pending;
      if k.stream == t && k.sequence >= next {
        next := k.sequence + 1;
        assert k == EventKey(t, next - 1);
      }
      pending := pending - {k};
    }
    if next == 0 {
      next := 1;
    }
    assert LastIs(events, t, next - 1);
    LastUnique(events, t, Last(events, t), next - 1);
    r := events[EventKey(t, next) := event.(sequence := next)];
  }
}
