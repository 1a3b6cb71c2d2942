/** What recovery finds in the lifecycle index (internal/store/sqlite.go, sqlite_lifecycle_heads.go), said of
    operation kinds and owner states as they are written in the tables. */
module RecoveryList {
  import opened Identifiers
  import opened Records
  import opened LifecycleHeads

  /** The kind of an operation of each family, as the service writes it. */
  function KindText(family: Family, resourceId: string): string {
    match family
    case CreateSandbox => "create_sandbox"
    case ResumeSandbox => "resume_sandbox:" + resourceId
    case PauseSandbox => "pause_sandbox:" + resourceId
    case AutoPauseSandbox => "auto_pause_sandbox:" + resourceId
    case DeleteSandbox => "delete_sandbox:" + resourceId
    case CreateWorkspace => "create_workspace"
    case DeleteWorkspace => "delete_workspace:" + resourceId
  }

  function OwnerOf(family: Family): OwnerKind {
    if family == CreateWorkspace || family == DeleteWorkspace then WorkspaceOwner else SandboxOwner
  }

  /** Operations of one kind on one resource. */
  datatype Line = Line(projectId: string, resourceId: string, family: Family)

  predicate Acts(r: Resource, line: Line) {
    && r.Operation? && r.projectId == line.projectId && r.resourceId == line.resourceId
    && r.kind == KindText(line.family, line.resourceId)
  }

  /** The resource still has work to recover: a sandbox that is not terminal, or a workspace neither ready nor
      terminal. */
  predicate Waits(rows: Rows, line: Line) {
    if OwnerOf(line.family) == SandboxOwner then
      var k := RowKey(SandboxKind, line.projectId, line.resourceId);
      k in rows && rows[k].Sandbox? && rows[k].state !in {Deleted, Expired, Failed}
    else
      var k := RowKey(WorkspaceKind, line.projectId, line.resourceId);
      k in rows && rows[k].Workspace? && rows[k].standing in {WorkspacePreparing, WorkspaceDeleting, WorkspaceUnknown}
  }

  predicate Unfinished(r: Resource) {
    r.Operation? && r.progress in {Pending, InProgress, OperationFailed}
  }

  /** `o` is the line's only operation. */
  ghost predicate Alone(rows: Rows, line: Line, o: RowKey) {
    o in rows && Acts(rows[o], line) && forall q | q in rows && Acts(rows[q], line) :: q == o
  }

  /** `o` is the line's latest operation: updated last, or else created last, or else with the greatest id. */
  ghost predicate Latest(rows: Rows, line: Line, o: RowKey) {
    && o in rows && Acts(rows[o], line)
    && forall q | q in rows && Acts(rows[q], line) && q != o ::
         var a, b := rows[o], rows[q];
         a.updatedAt >= b.updatedAt
         && (a.updatedAt == b.updatedAt ==>
             a.createdAt >= b.createdAt
             && (a.createdAt == b.createdAt ==> Less(b.id, a.id)))
  }

  function KeyFor(line: Line): HeadKey {
    HeadKey(line.projectId, OwnerOf(line.family), line.resourceId, line.family)
  }

  // ---------- The index speaks of exactly these lines ----------

  /** No two kinds read alike, whatever the resource is called. */
  lemma KindsApart(f: Family, g: Family, id: string)
    requires KindText(f, id) == KindText(g, id)
    ensures f == g
  {
    var x, y := KindText(f, id), KindText(g, id);
    assert x[0] == y[0] && x[7] == y[7];
  }

  lemma HeadKeyIs(r: Resource, line: Line)
    ensures HeadKeyOf(r) == Some(KeyFor(line)) <==> Acts(r, line)
  {
    if Acts(r, line) {
      forall g | KindText(g, r.resourceId) == r.kind ensures g == line.family {
        KindsApart(g, line.family, r.resourceId);
      }
      KindsOf(r);
    } else {
      KindsOf(r);
    }
  }

  /** An operation has a head to compete for exactly when its kind is one of the seven. */
  lemma KindsOf(r: Resource)
    ensures match HeadKeyOf(r)
            case Some(k) => r.Operation? && r.kind == KindText(k.family, r.resourceId)
                            && k == KeyFor(Line(r.projectId, r.resourceId, k.family))
            case None => !r.Operation? || forall g: Family :: r.kind != KindText(g, r.resourceId)
  {
  }

  lemma OtherKindsHaveNone(r: Resource)
    requires forall line :: !Acts(r, line)
    ensures HeadKeyOf(r) == None
  {
    KindsOf(r);
    if k :| HeadKeyOf(r) == Some(k) {
      assert Acts(r, Line(r.projectId, r.resourceId, k.family));
    }
  }

  lemma WaitsIs(rows: Rows, line: Line)
    requires ValidRows(rows)
    ensures Eligible(rows, KeyFor(line)) <==> Waits(rows, line)
  {
    hide SafeName, ValidId, NoControl;
    var k := OwnerRow(KeyFor(line));
    if k in rows {
      assert ValidRow(k, rows[k]);
    }
  }

  lemma AloneIs(rows: Rows, line: Line, o: RowKey)
    requires ValidRows(rows) && Alone(rows, line, o)
    ensures Members(rows, KeyFor(line)) == {o} && Newest(rows, {o}, o)
  {
    hide HeadKeyOf, Acts, ValidRows;
    forall q | q in rows ensures HeadKeyOf(rows[q]) == Some(KeyFor(line)) <==> Acts(rows[q], line) {
      HeadKeyIs(rows[q], line);
    }
  }

  // ---------- What recovery is given ----------

  lemma LatestIs(rows: Rows, line: Line, o: RowKey)
    requires Latest(rows, line, o)
    ensures Newest(rows, Members(rows, KeyFor(line)), o)
  {
    hide HeadKeyOf;
    forall q | q in rows ensures HeadKeyOf(rows[q]) == Some(KeyFor(line)) <==> Acts(rows[q], line) {
      HeadKeyIs(rows[q], line);
    }
  }

  /** A rebuild misses nothing: a waiting resource's latest operation of a kind becomes its head. */
  lemma RebuildFindsTheLatest(heads: Heads, rows: Rows, line: Line, o: RowKey)
    requires ValidRows(rows) && Rebuilt(heads, rows) && Latest(rows, line, o) && Waits(rows, line)
    ensures Get(heads, KeyFor(line)) == Some(o)
  {
    hide ValidRows, Eligible, Waits, HeadKeyOf, Members, Newest, Latest;
    WaitsIs(rows, line);
    LatestIs(rows, line, o);
    NewestIs(rows, Members(rows, KeyFor(line)), o);
    assert Get(heads, KeyFor(line)) == NewestOf(rows, Members(rows, KeyFor(line)));
  }

  /** After a transaction, a waiting resource's only operation of a kind is its head exactly when it joined in that
      transaction, or the line had a head, or another operation of the line was there before. It is missed only if it
      had been the line's only operation all along while the resource did not wait. */
  lemma SyncFindsTheOnlyOneIff(heads: Heads, before: Rows, after: Rows, heads': Heads, line: Line, o: RowKey)
    requires ValidRows(before) && ValidRows(after) && Sound(heads, before) && Follows(heads, before, after, heads')
    requires Alone(after, line, o) && Waits(after, line)
    ensures Get(heads', KeyFor(line)) == Some(o) <==> KeyFor(line) in heads || !Alone(before, line, o)
  {
    hide ValidRows, Eligible, Waits, HeadKeyOf, Newest, Follows, Acts;
    var k := KeyFor(line);
    WaitsIs(after, line);
    AloneIs(after, line, o);
    NewestIs(after, {o}, o);
    HeadFollows(heads, before, after, heads', k);
    forall q | q in before ensures Member(before, q, k) <==> Acts(before[q], line) {
      HeadKeyIs(before[q], line);
    }
    OnlyMember(after, k, o);
    assert Entered(before, after, k) == if Member(before, o, k) then {} else {o};
    if Member(before, o, k) {
      if q :| q in before && Acts(before[q], line) && q != o {
        assert q in Left(before, after, k);
      } else {
        assert Left(before, after, k) == {};
      }
    }
  }

  lemma OnlyMember(rows: Rows, k: HeadKey, o: RowKey)
    requires Members(rows, k) == {o}
    ensures forall q :: Member(rows, q, k) <==> q == o
  {
    hide HeadKeyOf;
    forall q ensures Member(rows, q, k) <==> q == o {
      assert q in Members(rows, k) <==> Member(rows, q, k);
    }
  }

  /** Over any run: a resource's only operation of a kind is its head as long as the resource waits, from the
      transaction that inserted it on. */
  lemma RunFindsTheOnlyOne(rows: seq<Rows>, heads: seq<Heads>, i: nat, j: nat, line: Line, o: RowKey)
    requires IsRun(rows, heads) && i < j < |rows| && !(o in rows[i] && Acts(rows[i][o], line))
    requires forall t | i < t <= j :: Alone(rows[t], line, o) && Waits(rows[t], line)
    ensures Get(heads[j], KeyFor(line)) == Some(o)
  {
    hide ValidRows, Eligible, Waits, HeadKeyOf, Newest, Follows, Acts, Alone;
    var k := KeyFor(line);
    forall t | i < t <= j ensures Eligible(rows[t], k) && Members(rows[t], k) == {o} && Newest(rows[t], {o}, o) {
      WaitsIs(rows[t], line);
      AloneIs(rows[t], line, o);
    }
    if o in rows[i] {
      HeadKeyIs(rows[i][o], line);
    }
    assert forall t | i < t <= j :: forall q :: Member(rows[t], q, k) <==> q in Members(rows[t], k);
    assert Entered(rows[i], rows[i + 1], k) == {o};
    forall t | i < t < j ensures Entered(rows[t], rows[t + 1], k) == {} {
    }
    LastInsertedIsHead(rows, heads, i, j, k, o);
  }

  /** An operation of one kind never displaces the head of another kind on the same resource. */
  lemma KindsDoNotInterfere(heads: Heads, rows: Rows, heads': Heads, o: RowKey, r: Resource, line: Line, other: Family)
    requires ValidRows(rows) && Sound(heads, rows) && Follows(heads, rows, rows[o := r], heads')
    requires Acts(r, line.(family := other)) && other != line.family && !(o in rows && Acts(rows[o], line))
    requires OwnerRow(KeyFor(line)) != o
    ensures Get(heads', KeyFor(line)) == Get(heads, KeyFor(line))
  {
    hide ValidRows, Eligible, HeadKeyOf, Follows, Acts;
    var k, rows' := KeyFor(line), rows[o := r];
    HeadKeyIs(r, line.(family := other));
    if o in rows {
      HeadKeyIs(rows[o], line);
    }
    HeadFollows(heads, rows, rows', heads', k);
    SameOwnerSame(rows, o, r, k);
    assert Entered(rows, rows', k) == {} && Left(rows, rows', k) == {};
  }

  lemma SameOwnerSame(rows: Rows, o: RowKey, r: Resource, k: HeadKey)
    requires OwnerRow(k) != o
    ensures Eligible(rows[o := r], k) == Eligible(rows, k)
  {
  }

  // ---------- The list itself ----------

  /** Everything listed is an unfinished operation of one of the seven kinds on a resource that waits. */
  ghost predicate OnlyWork(rows: Rows, operations: set<RowKey>) {
    forall o | o in operations ::
      o in rows && Unfinished(rows[o]) && exists line :: Acts(rows[o], line) && Waits(rows, line)
  }

  /** Every waiting resource's latest operation of each kind is there, if it is unfinished. */
  ghost predicate AllWork(rows: Rows, operations: set<RowKey>) {
    forall line, o | Latest(rows, line, o) && Waits(rows, line) && Unfinished(rows[o]) :: o in operations
  }

  lemma HeadIsWork(heads: Heads, rows: Rows, k: HeadKey)
    requires ValidRows(rows) && Sound(heads, rows) && k in heads
    ensures heads[k] in rows && exists line :: Acts(rows[heads[k]], line) && Waits(rows, line)
  {
    hide ValidRows, Waits, Acts, HeadKeyOf, Eligible;
    assert Member(rows, heads[k], k) && Eligible(rows, k);
    var r := rows[heads[k]];
    KindsOf(r);
    var line := Line(r.projectId, r.resourceId, k.family);
    HeadKeyIs(r, line);
    WaitsIs(rows, line);
  }

  lemma HeadIsOnLine(heads: Heads, rows: Rows, k: HeadKey, line: Line, o: RowKey)
    requires Sound(heads, rows) && k in heads && heads[k] == o && Alone(rows, line, o)
    ensures k == KeyFor(line)
  {
    hide Eligible, HeadKeyOf, Acts;
    HeadKeyIs(rows[o], line);
  }

  /** The list over a sound index: only work, and every head that is not done. */
  method ListWork(table: Table, rows: Rows) returns (operations: set<RowKey>)
    requires ValidRows(rows) && Sound(table.heads, rows)
    ensures OnlyWork(rows, operations)
    ensures forall k | k in table.heads && table.heads[k] in rows && Unfinished(rows[table.heads[k]]) ::
              table.heads[k] in operations
    ensures forall o | o in operations :: exists k :: k in table.heads && table.heads[k] == o
  {
    hide ValidRows, Waits, Acts, HeadKeyOf, Eligible;
    var consistent, listed := table.ListForReconcile(rows);
    forall o | o in listed
      ensures o in rows && Unfinished(rows[o]) && exists line :: Acts(rows[o], line) && Waits(rows, line)
    {
      var k :| k in table.heads && table.heads[k] == o;
      HeadIsWork(table.heads, rows, k);
    }
    return listed;
  }

  /** After a rebuild the list misses nothing and holds nothing else. */
  method ListAfterRebuild(table: Table, rows: Rows) returns (operations: set<RowKey>)
    requires ValidRows(rows)
    modifies table
    ensures OnlyWork(rows, operations) && AllWork(rows, operations)
  {
    hide ValidRows, Waits, Acts, HeadKeyOf, Eligible, Rebuilt, Sound, OnlyWork;
    table.Rebuild(rows);
    RebuiltSound(table.heads, rows);
    operations := ListWork(table, rows);
    forall line, o | Latest(rows, line, o) && Waits(rows, line) && Unfinished(rows[o]) ensures o in operations {
      RebuildFindsTheLatest(table.heads, rows, line, o);
      assert table.heads[KeyFor(line)] in operations;
    }
  }

  /** After a transaction the list holds nothing else, and misses only what had no head before and did not join. */
  method ListAfterSync(table: Table, changed: set<RowKey>, before: Rows, rows: Rows, ghost base: Rows,
                       ghost prior: Heads)
    returns (operations: set<RowKey>)
    requires ValidRows(base) && ValidRows(rows) && Changes(changed, before, base, rows) && Sound(prior, base)
    requires Cascaded(table.heads, prior, rows)
    modifies table
    ensures OnlyWork(rows, operations)
    ensures forall line, o | Alone(rows, line, o) && Waits(rows, line) && Unfinished(rows[o]) ::
              o in operations <==> KeyFor(line) in prior || !Alone(base, line, o)
  {
    hide ValidRows, Waits, Acts, HeadKeyOf, Eligible, Sound, OnlyWork, Follows, Changes, Cascaded;
    table.Sync(changed, before, rows, base, prior);
    FollowsSound(prior, base, rows, table.heads);
    operations := ListWork(table, rows);
    forall line, o | Alone(rows, line, o) && Waits(rows, line) && Unfinished(rows[o])
      ensures o in operations <==> KeyFor(line) in prior || !Alone(base, line, o)
    {
      SyncFindsTheOnlyOneIff(prior, base, rows, table.heads, line, o);
      if o in operations {
        var k :| k in table.heads && table.heads[k] == o;
        HeadIsOnLine(table.heads, rows, k, line, o);
      }
    }
  }
}
