/** The lifecycle recovery index (internal/store/sqlite_lifecycle_heads.go): for each owner and family of
    operations, the operation recovery looks at. It is maintained from row differences. */
module LifecycleHeads {
  import opened Identifiers
  import opened Records

  datatype OwnerKind = SandboxOwner | WorkspaceOwner

  datatype Family = CreateSandbox | ResumeSandbox | PauseSandbox | AutoPauseSandbox | DeleteSandbox
                  | CreateWorkspace | DeleteWorkspace

  datatype HeadKey = HeadKey(projectId: string, ownerKind: OwnerKind, resourceId: string, family: Family)

  type Rows = map<RowKey, Resource>
  type Heads = map<HeadKey, RowKey>

  /** Which head an operation competes for, if any: some kinds carry the resource they act on. */
  function HeadKeyOf(r: Resource): Option<HeadKey> {
    if !r.Operation? then None
    else if r.kind == "create_sandbox" then Some(HeadKey(r.projectId, SandboxOwner, r.resourceId, CreateSandbox))
    else if r.kind == "resume_sandbox:" + r.resourceId
        then Some(HeadKey(r.projectId, SandboxOwner, r.resourceId, ResumeSandbox))
    else if r.kind == "pause_sandbox:" + r.resourceId
        then Some(HeadKey(r.projectId, SandboxOwner, r.resourceId, PauseSandbox))
    else if r.kind == "auto_pause_sandbox:" + r.resourceId
        then Some(HeadKey(r.projectId, SandboxOwner, r.resourceId, AutoPauseSandbox))
    else if r.kind == "delete_sandbox:" + r.resourceId
        then Some(HeadKey(r.projectId, SandboxOwner, r.resourceId, DeleteSandbox))
    else if r.kind == "create_workspace" then Some(HeadKey(r.projectId, WorkspaceOwner, r.resourceId, CreateWorkspace))
    else if r.kind == "delete_workspace:" + r.resourceId
        then Some(HeadKey(r.projectId, WorkspaceOwner, r.resourceId, DeleteWorkspace))
    else None
  }

  function OwnerRow(k: HeadKey): RowKey {
    RowKey(if k.ownerKind == SandboxOwner then SandboxKind else WorkspaceKind, k.projectId, k.resourceId)
  }

  predicate EligibleRow(r: Resource) {
    match r
    case Sandbox(_, _, state, _, _, _, _, _, _, _, _, _, _, _) => !Terminal(state)
    case Workspace(_, _, _, standing, _) =>
      standing != WorkspaceReady && standing != WorkspaceDeleted && standing != WorkspaceFailed
    case _ => false
  }

  /** The owner still has lifecycle work to recover. */
  predicate Eligible(rows: Rows, k: HeadKey) {
    OwnerRow(k) in rows && EligibleRow(rows[OwnerRow(k)])
  }

  // ---------- Which operation is newer ----------

  predicate Less(a: string, b: string) {
    b != "" && (a == "" || a[0] < b[0] || (a[0] == b[0] && Less(a[1..], b[1..])))
  }

  lemma {:induction false} LessTotal(a: string, b: string)
    ensures (Less(a, b) ==> !Less(b, a)) && (a != b ==> Less(a, b) || Less(b, a)) && !Less(a, a)
  {
    if a != "" {
      LessTotal(a[1..], a[1..]);
    }
    if a != "" && b != "" {
      LessTotal(a[1..], b[1..]);
      assert a == [a[0]] + a[1..] && b == [b[0]] + b[1..];
    }
  }

  lemma {:induction false} LessTransitive(a: string, b: string, c: string)
    requires Less(a, b) && Less(b, c)
    ensures Less(a, c)
  {
    if a != "" && a[0] == b[0] == c[0] {
      LessTransitive(a[1..], b[1..], c[1..]);
    }
  }

  predicate IsNewer(a: Resource, b: Resource) {
    && a.Operation? && b.Operation?
    && (a.updatedAt > b.updatedAt
        || (a.updatedAt == b.updatedAt && (a.createdAt > b.createdAt
                                           || (a.createdAt == b.createdAt && Less(b.id, a.id)))))
  }

  lemma NewerTotal(a: Resource, b: Resource)
    requires a.Operation? && b.Operation?
    ensures (IsNewer(a, b) ==> !IsNewer(b, a)) && (a.id != b.id ==> IsNewer(a, b) || IsNewer(b, a))
  {
    LessTotal(a.id, b.id);
  }

  lemma NewerTransitive(a: Resource, b: Resource, c: Resource)
    requires IsNewer(a, b) && IsNewer(b, c)
    ensures IsNewer(a, c)
  {
    if a.updatedAt == c.updatedAt && a.createdAt == c.createdAt {
      LessTransitive(c.id, b.id, a.id);
    }
  }

  // ---------- Members of a family ----------

  predicate Member(rows: Rows, o: RowKey, k: HeadKey) {
    o in rows && HeadKeyOf(rows[o]) == Some(k)
  }

  ghost function Members(rows: Rows, k: HeadKey): set<RowKey> {
    set o | o in rows && Member(rows, o, k)
  }

  /** Operations that joined the family, or left it, between two states of the rows. */
  ghost function Entered(before: Rows, after: Rows, k: HeadKey): set<RowKey> {
    set o | o in after && Member(after, o, k) && !Member(before, o, k)
  }

  ghost function Left(before: Rows, after: Rows, k: HeadKey): set<RowKey> {
    set o | o in before && Member(before, o, k) && !Member(after, o, k)
  }

  ghost predicate Newest(rows: Rows, s: set<RowKey>, x: RowKey) {
    x in s && x in rows && forall y | y in s && y != x :: y in rows && IsNewer(rows[x], rows[y])
  }

  lemma NewestUnique(rows: Rows, s: set<RowKey>, x: RowKey, y: RowKey)
    requires Newest(rows, s, x) && Newest(rows, s, y)
    ensures x == y
  {
    if x != y && rows[x].Operation? && rows[y].Operation? {
      NewerTotal(rows[x], rows[y]);
    }
  }

  ghost function NewestOf(rows: Rows, s: set<RowKey>): Option<RowKey> {
    if exists x :: Newest(rows, s, x) then
      var x :| Newest(rows, s, x); Some(x)
    else None
  }

  lemma NewestIs(rows: Rows, s: set<RowKey>, x: RowKey)
    requires Newest(rows, s, x)
    ensures NewestOf(rows, s) == Some(x)
  {
    hide Newest;
    var y :| Newest(rows, s, y) && NewestOf(rows, s) == Some(y);
    NewestUnique(rows, s, x, y);
  }

  lemma NoneIsNewest(rows: Rows)
    ensures NewestOf(rows, {}) == None
  {
  }

  /** One family's operations are of one project, so their ids tell them apart. */
  lemma MembersDistinct(rows: Rows, o: RowKey, q: RowKey, k: HeadKey)
    requires ValidRows(rows) && Member(rows, o, k) && Member(rows, q, k) && o != q
    ensures rows[o].Operation? && rows[q].Operation? && rows[o].id != rows[q].id
  {
    hide SafeName, ValidId;
    assert ValidRow(o, rows[o]) && ValidRow(q, rows[q]);
  }

  /** Keeping the newer of two, in whatever order candidates come, keeps the newest. */
  lemma NewestNext(rows: Rows, s: set<RowKey>, x: RowKey, o: RowKey, k: HeadKey)
    requires ValidRows(rows) && Newest(rows, s, x) && o !in s && Member(rows, o, k)
             && forall q | q in s :: Member(rows, q, k)
    ensures Newest(rows, s + {o}, if IsNewer(rows[o], rows[x]) then o else x)
  {
    hide IsNewer, ValidRows, HeadKeyOf;
    MembersDistinct(rows, o, x, k);
    NewerTotal(rows[o], rows[x]);
    if IsNewer(rows[o], rows[x]) {
      forall y | y in s && y != x ensures IsNewer(rows[o], rows[y]) {
        NewerTransitive(rows[o], rows[x], rows[y]);
      }
    }
  }

  /** Every non-empty family has a newest operation. */
  lemma {:induction false} NewestExists(rows: Rows, s: set<RowKey>, k: HeadKey)
    requires ValidRows(rows) && s != {} && forall q | q in s :: Member(rows, q, k)
    ensures NewestOf(rows, s).Some? && Newest(rows, s, NewestOf(rows, s).value)
    decreases s
  {
    hide IsNewer, ValidRows, HeadKeyOf;
    var o :| o in s;
    var x := o;
    if s == {o} {
      assert Newest(rows, s, o);
    } else {
      NewestExists(rows, s - {o}, k);
      x := NewestOf(rows, s - {o}).value;
      NewestNext(rows, s - {o}, x, o, k);
      x := if IsNewer(rows[o], rows[x]) then o else x;
      assert s - {o} + {o} == s;
    }
    NewestIs(rows, s, x);
  }

  // ---------- What the index means ----------

  function Get(heads: Heads, k: HeadKey): Option<RowKey> {
    if k in heads then Some(heads[k]) else None
  }

  /** Every head names an operation of exactly its owner and family, and the owner is eligible. */
  ghost predicate Sound(heads: Heads, rows: Rows) {
    forall k | k in heads :: Member(rows, heads[k], k) && Eligible(rows, k)
  }

  /** A family's head after one transaction. */
  ghost function HeadAfter(heads: Heads, before: Rows, after: Rows, k: HeadKey): Option<RowKey> {
    if !Eligible(after, k) then None
    else if Entered(before, after, k) != {} then NewestOf(after, Entered(before, after, k))
    else if k in heads && Member(after, heads[k], k) then Some(heads[k])
    else if Left(before, after, k) != {} then NewestOf(after, Members(after, k))
    else None
  }

  ghost predicate Follows(heads: Heads, before: Rows, after: Rows, heads': Heads) {
    forall k :: Get(heads', k) == HeadAfter(heads, before, after, k)
  }

  /** What a rebuild computes: the newest operation of every family with an eligible owner. */
  ghost predicate Rebuilt(heads: Heads, rows: Rows) {
    forall k :: Get(heads, k) == if Eligible(rows, k) then NewestOf(rows, Members(rows, k)) else None
  }

  lemma FollowsSound(heads: Heads, before: Rows, after: Rows, heads': Heads)
    requires ValidRows(after) && Follows(heads, before, after, heads')
    ensures Sound(heads', after)
  {
    hide IsNewer, ValidRows, HeadKeyOf, EligibleRow;
    forall k | k in heads' ensures Member(after, heads'[k], k) && Eligible(after, k) {
      assert Get(heads', k) == HeadAfter(heads, before, after, k);
      if Entered(before, after, k) != {} {
        NewestExists(after, Entered(before, after, k), k);
      } else if Members(after, k) != {} {
        NewestExists(after, Members(after, k), k);
      } else {
        NoneIsNewest(after);
      }
    }
  }

  lemma RebuiltSound(heads: Heads, rows: Rows)
    requires ValidRows(rows) && Rebuilt(heads, rows)
    ensures Sound(heads, rows)
  {
    hide IsNewer, ValidRows, HeadKeyOf, EligibleRow;
    forall k | k in heads ensures Member(rows, heads[k], k) && Eligible(rows, k) {
      assert Get(heads, k) == if Eligible(rows, k) then NewestOf(rows, Members(rows, k)) else None;
      if Members(rows, k) != {} {
        NewestExists(rows, Members(rows, k), k);
      } else {
        NoneIsNewest(rows);
      }
    }
  }

  // ---------- Completeness over runs ----------

  /** From one transaction to the next: rows, and the heads that follow them. */
  ghost predicate IsRun(rows: seq<Rows>, heads: seq<Heads>) {
    && |rows| == |heads|
    && (forall t | 0 <= t < |rows| :: ValidRows(rows[t]))
    && (forall t | 0 <= t < |rows| - 1 :: Follows(heads[t], rows[t], rows[t + 1], heads[t + 1]))
  }

  /** `o` is the last operation that joined the family by transaction `j`, having joined at `i`; it is
      still in it, and since then the owner has been eligible at the end of every transaction. */
  ghost predicate LastInserted(rows: seq<Rows>, i: nat, j: nat, k: HeadKey, o: RowKey) {
    && i < j < |rows|
    && Newest(rows[i + 1], Entered(rows[i], rows[i + 1], k), o)
    && (forall t | i < t <= j :: Eligible(rows[t], k) && Member(rows[t], o, k))
    && (forall t | i < t < j :: Entered(rows[t], rows[t + 1], k) == {})
  }

  /** The last inserted operation is the head, whatever clocks its row carries and whatever else is
      updated or removed. */
  lemma {:induction false} LastInsertedIsHead(rows: seq<Rows>, heads: seq<Heads>, i: nat, j: nat, k: HeadKey, o: RowKey)
    requires IsRun(rows, heads) && LastInserted(rows, i, j, k, o)
    ensures Get(heads[j], k) == Some(o)
    decreases j
  {
    hide IsNewer, HeadKeyOf, Eligible, Follows, ValidRows, Newest;
    assert Follows(heads[j - 1], rows[j - 1], rows[j - 1 + 1], heads[j - 1 + 1]);
    if j == i + 1 {
      HeadFollows(heads[i], rows[i], rows[j], heads[j], k);
      NewestIs(rows[j], Entered(rows[i], rows[j], k), o);
      NewestIn(rows[j], Entered(rows[i], rows[j], k), o);
    } else {
      LastInsertedIsHead(rows, heads, i, j - 1, k, o);
      assert Entered(rows[j - 1], rows[j - 1 + 1], k) == {};
      QuietStep(heads[j - 1], rows[j - 1], rows[j], heads[j], k);
    }
  }

  lemma NewestIn(rows: Rows, s: set<RowKey>, x: RowKey)
    requires Newest(rows, s, x)
    ensures x in s
  {
  }

  /** Removing the head promotes by clock, not by insertion: a given survivor is promoted if and only if
      its row is the newest among the survivors. */
  lemma RemovedHeadFallsBack(heads: Heads, before: Rows, after: Rows, k: HeadKey, x: RowKey)
    requires ValidRows(after) && Sound(heads, before) && k in heads && !Member(after, heads[k], k)
    requires Eligible(after, k) && Entered(before, after, k) == {}
    ensures HeadAfter(heads, before, after, k) == Some(x) <==> Newest(after, Members(after, k), x)
  {
    hide IsNewer, HeadKeyOf, EligibleRow, ValidRows;
    assert heads[k] in Left(before, after, k);
    if Newest(after, Members(after, k), x) {
      NewestIs(after, Members(after, k), x);
    }
    if Members(after, k) != {} {
      NewestExists(after, Members(after, k), k);
    } else {
      NoneIsNewest(after);
    }
  }

  /** The transaction that ends in `t` takes the family's head out of it. */
  ghost predicate Removed(rows: seq<Rows>, heads: seq<Heads>, t: nat, k: HeadKey) {
    0 < t < |rows| == |heads| && k in heads[t - 1] && !Member(rows[t], heads[t - 1][k], k)
  }

  /** `i` is the last transaction that put operations into the family before `j`, and since then the owner has
      been eligible at the end of every transaction. */
  ghost predicate SinceInsertion(rows: seq<Rows>, i: nat, j: nat, k: HeadKey) {
    && i < j < |rows|
    && Entered(rows[i], rows[i + 1], k) != {}
    && (forall t | i < t <= j :: Eligible(rows[t], k))
    && (forall t | i < t < j :: Entered(rows[t], rows[t + 1], k) == {})
  }

  ghost predicate NoRemoval(rows: seq<Rows>, heads: seq<Heads>, i: nat, j: nat, k: HeadKey) {
    forall t | i + 1 < t <= j :: !Removed(rows, heads, t, k)
  }

  ghost predicate LatestRemoval(rows: seq<Rows>, heads: seq<Heads>, i: nat, j: nat, k: HeadKey, t: nat) {
    i + 1 < t <= j && Removed(rows, heads, t, k) && forall u | t < u <= j :: !Removed(rows, heads, u, k)
  }

  lemma {:induction false} LatestRemovalExists(rows: seq<Rows>, heads: seq<Heads>, i: nat, j: nat, k: HeadKey)
    requires !NoRemoval(rows, heads, i, j, k)
    ensures exists t: nat :: LatestRemoval(rows, heads, i, j, k, t)
    decreases j
  {
    hide Removed;
    if Removed(rows, heads, j, k) && i + 1 < j {
      assert LatestRemoval(rows, heads, i, j, k, j);
    } else {
      LatestRemovalExists(rows, heads, i, j - 1, k);
      var t: nat :| LatestRemoval(rows, heads, i, j - 1, k, t);
      assert LatestRemoval(rows, heads, i, j, k, t);
    }
  }

  lemma NewestOfIs(rows: Rows, s: set<RowKey>, k: HeadKey, x: RowKey)
    requires ValidRows(rows) && forall q | q in s :: Member(rows, q, k)
    ensures NewestOf(rows, s) == Some(x) <==> Newest(rows, s, x)
    ensures NewestOf(rows, s) == None <==> s == {}
  {
    hide IsNewer, HeadKeyOf, ValidRows;
    if Newest(rows, s, x) {
      NewestIs(rows, s, x);
    }
    if s != {} {
      NewestExists(rows, s, k);
    } else {
      NoneIsNewest(rows);
    }
  }

  /** Without an insertion the head stays while it is a member, and an empty family stays empty. */
  lemma QuietStep(heads: Heads, before: Rows, after: Rows, heads': Heads, k: HeadKey)
    requires Follows(heads, before, after, heads') && Eligible(after, k) && Entered(before, after, k) == {}
    ensures k in heads && Member(after, heads[k], k) ==> Get(heads', k) == Some(heads[k])
    ensures k !in heads && Members(before, k) == {} ==> Get(heads', k) == None && Members(after, k) == {}
  {
    hide HeadKeyOf, EligibleRow, Follows;
    HeadFollows(heads, before, after, heads', k);
    forall o | o in Members(after, k) ensures o in Members(before, k) {
      assert o !in Entered(before, after, k);
    }
    assert Left(before, after, k) <= Members(before, k);
  }

  lemma RemovalStep(heads: Heads, before: Rows, after: Rows, heads': Heads, k: HeadKey)
    requires ValidRows(after) && Sound(heads, before) && Follows(heads, before, after, heads')
    requires k in heads && !Member(after, heads[k], k) && Eligible(after, k) && Entered(before, after, k) == {}
    ensures Get(heads', k) == NewestOf(after, Members(after, k)) && (k in heads' || Members(after, k) == {})
  {
    hide HeadKeyOf, EligibleRow, Follows, ValidRows, IsNewer;
    HeadFollows(heads, before, after, heads', k);
    assert heads[k] in Left(before, after, k);
    NewestOfIs(after, Members(after, k), k, heads[k]);
  }

  /** While no head is removed, the head is the newest of the operations inserted last. */
  lemma {:induction false} HeadWithoutRemoval(rows: seq<Rows>, heads: seq<Heads>, i: nat, j: nat, k: HeadKey)
    requires IsRun(rows, heads) && SinceInsertion(rows, i, j, k) && NoRemoval(rows, heads, i, j, k)
    ensures k in heads[j] && Newest(rows[i + 1], Entered(rows[i], rows[i + 1], k), heads[j][k])
    ensures forall t | i < t <= j :: Member(rows[t], heads[j][k], k)
    decreases j
  {
    hide IsNewer, HeadKeyOf, Eligible, Follows, ValidRows;
    assert Follows(heads[j - 1], rows[j - 1], rows[j - 1 + 1], heads[j - 1 + 1]);
    if j == i + 1 {
      var entered := Entered(rows[i], rows[j], k);
      HeadFollows(heads[i], rows[i], rows[j], heads[j], k);
      NewestExists(rows[j], entered, k);
    } else {
      HeadWithoutRemoval(rows, heads, i, j - 1, k);
      assert !Removed(rows, heads, j, k);
      assert Entered(rows[j - 1], rows[j - 1 + 1], k) == {};
      QuietStep(heads[j - 1], rows[j - 1], rows[j], heads[j], k);
    }
  }

  /** Since the latest removal the head is the operation that was newest by its clocks at that time. */
  lemma {:induction false} HeadSinceRemoval(rows: seq<Rows>, heads: seq<Heads>, i: nat, j: nat, k: HeadKey, t: nat)
    requires IsRun(rows, heads) && SinceInsertion(rows, i, j, k) && LatestRemoval(rows, heads, i, j, k, t)
    ensures Get(heads[j], k) == NewestOf(rows[t], Members(rows[t], k))
    ensures k in heads[j] || Members(rows[j], k) == {}
    decreases j
  {
    hide IsNewer, HeadKeyOf, Eligible, Follows, ValidRows, Members;
    assert Follows(heads[j - 1], rows[j - 1], rows[j - 1 + 1], heads[j - 1 + 1]);
    assert Entered(rows[j - 1], rows[j - 1 + 1], k) == {};
    if j == t {
      assert Follows(heads[j - 2], rows[j - 2], rows[j - 2 + 1], heads[j - 2 + 1]);
      FollowsSound(heads[j - 2], rows[j - 2], rows[j - 1], heads[j - 1]);
      RemovalStep(heads[j - 1], rows[j - 1], rows[j], heads[j], k);
    } else {
      HeadSinceRemoval(rows, heads, i, j - 1, k, t);
      assert !Removed(rows, heads, j, k);
      QuietStep(heads[j - 1], rows[j - 1], rows[j], heads[j], k);
    }
  }

  /** By `j` the operation has been in the family ever since it joined it in transaction `e`. */
  ghost predicate JoinedAt(rows: seq<Rows>, j: nat, k: HeadKey, o: RowKey, e: nat) {
    e < j < |rows| && o in Entered(rows[e], rows[e + 1], k) && forall t | e < t <= j :: Member(rows[t], o, k)
  }

  /** Of the operations in the family at `j`, `x` was inserted last: in a later transaction than any other, or in
      the same one with newer clocks. */
  ghost predicate LastSurvivor(rows: seq<Rows>, j: nat, k: HeadKey, x: RowKey) {
    exists e: nat :: JoinedAt(rows, j, k, x, e) && InsertedLast(rows, j, k, x, e)
  }

  ghost predicate InsertedLast(rows: seq<Rows>, j: nat, k: HeadKey, x: RowKey, e: nat)
    requires JoinedAt(rows, j, k, x, e)
  {
    forall y, f: nat | JoinedAt(rows, j, k, y, f) && y != x ::
      f < e || (f == e && y in rows[e + 1] && IsNewer(rows[e + 1][x], rows[e + 1][y]))
  }

  /** As long as its head has not been removed, a family's last survivor is its head. */
  lemma SurvivorWithoutRemoval(rows: seq<Rows>, heads: seq<Heads>, i: nat, j: nat, k: HeadKey, x: RowKey)
    requires IsRun(rows, heads) && SinceInsertion(rows, i, j, k) && NoRemoval(rows, heads, i, j, k)
    requires LastSurvivor(rows, j, k, x)
    ensures Get(heads[j], k) == Some(x)
  {
    hide Follows, ValidRows, NoRemoval, IsNewer, HeadKeyOf, Eligible;
    HeadWithoutRemoval(rows, heads, i, j, k);
    var h := heads[j][k];
    var e: nat :| JoinedAt(rows, j, k, x, e) && InsertedLast(rows, j, k, x, e);
    assert JoinedAt(rows, j, k, h, i);
    if x != h {
      assert e == i;
      MemberIsOperation(rows[i + 1], x, k);
      MemberIsOperation(rows[i + 1], h, k);
      NewerTotal(rows[i + 1][x], rows[i + 1][h]);
    }
  }

  lemma MemberIsOperation(rows: Rows, o: RowKey, k: HeadKey)
    requires Member(rows, o, k)
    ensures rows[o].Operation?
  {
  }

  /** The latest removal of a head left `x` as the newest of the family by its clocks. */
  ghost predicate PromotedAt(rows: seq<Rows>, heads: seq<Heads>, i: nat, j: nat, k: HeadKey, t: nat, x: RowKey) {
    LatestRemoval(rows, heads, i, j, k, t) && t < |rows| && Newest(rows[t], Members(rows[t], k), x)
  }

  /** Exactly when the last surviving insertion is the head: no head has been removed since the last insertion,
      or the survivor was also the newest by its clocks when a head was last removed. */
  lemma LastSurvivorIsHeadIff(rows: seq<Rows>, heads: seq<Heads>, i: nat, j: nat, k: HeadKey, x: RowKey)
    requires IsRun(rows, heads) && SinceInsertion(rows, i, j, k) && LastSurvivor(rows, j, k, x)
    ensures Get(heads[j], k) == Some(x) <==>
              NoRemoval(rows, heads, i, j, k) || exists t: nat :: PromotedAt(rows, heads, i, j, k, t, x)
  {
    hide Follows, LastSurvivor, NoRemoval, LatestRemoval, Newest, IsNewer, HeadKeyOf, Eligible, ValidRows;
    if NoRemoval(rows, heads, i, j, k) {
      SurvivorWithoutRemoval(rows, heads, i, j, k, x);
    } else {
      LatestRemovalExists(rows, heads, i, j, k);
      forall t: nat | LatestRemoval(rows, heads, i, j, k, t)
        ensures Get(heads[j], k) == Some(x) <==> PromotedAt(rows, heads, i, j, k, t, x)
      {
        HeadAtRemoval(rows, heads, i, j, k, t, x);
      }
    }
  }

  lemma HeadAtRemoval(rows: seq<Rows>, heads: seq<Heads>, i: nat, j: nat, k: HeadKey, t: nat, x: RowKey)
    requires IsRun(rows, heads) && SinceInsertion(rows, i, j, k) && LatestRemoval(rows, heads, i, j, k, t)
    ensures Get(heads[j], k) == Some(x) <==> PromotedAt(rows, heads, i, j, k, t, x)
  {
    hide Follows, Newest, IsNewer, HeadKeyOf, Eligible, ValidRows, Removed;
    HeadSinceRemoval(rows, heads, i, j, k, t);
    NewestOfIs(rows[t], Members(rows[t], k), k, x);
  }

  function Attempt(id: string, at: int): Resource {
    Operation("p", id, "pause_sandbox:s", "s", InProgress, id, at, at, "")
  }

  lemma AttemptHead(id: string, at: int)
    ensures HeadKeyOf(Attempt(id, at)) == Some(HeadKey("p", SandboxOwner, "s", PauseSandbox))
  {
    assert "pause_sandbox:" + "s" == "pause_sandbox:s";
  }

  lemma OwnerHeadsNothing(r: Resource)
    requires EligibleRow(r)
    ensures HeadKeyOf(r) == None
  {
  }

  lemma HeadFollows(heads: Heads, before: Rows, after: Rows, heads': Heads, k: HeadKey)
    requires Follows(heads, before, after, heads')
    ensures Get(heads', k) == HeadAfter(heads, before, after, k)
  {
    hide HeadAfter;
  }

  /** One operation joins a family, and becomes its head. */
  lemma JoinedIsHead(heads: Heads, rows: Rows, heads': Heads, k: HeadKey, o: RowKey, r: Resource)
    requires Follows(heads, rows, rows[o := r], heads')
    requires o !in rows && HeadKeyOf(r) == Some(k) && Eligible(rows[o := r], k)
    ensures Get(heads', k) == Some(o)
  {
    hide Follows, HeadKeyOf, Eligible;
    HeadFollows(heads, rows, rows[o := r], heads', k);
    assert Entered(rows, rows[o := r], k) == {o};
    assert Newest(rows[o := r], {o}, o);
    NewestIs(rows[o := r], {o}, o);
  }

  lemma DeletedLeaves(rows: Rows, o: RowKey, k: HeadKey)
    ensures Entered(rows, rows - {o}, k) == {} && !Member(rows - {o}, o, k)
  {
    hide HeadKeyOf;
  }

  lemma AttemptsRanked(sandbox: Resource, rows: Rows)
    requires EligibleRow(sandbox)
    requires rows == map[RowKey(SandboxKind, "p", "s") := sandbox,
                         OperationKey("p", "a") := Attempt("a", 20)][OperationKey("p", "b") := Attempt("b", 10)]
    ensures var k := HeadKey("p", SandboxOwner, "s", PauseSandbox);
            Newest(rows, Members(rows, k), OperationKey("p", "a"))
  {
    hide HeadKeyOf, EligibleRow;
    OwnerHeadsNothing(sandbox);
    AttemptHead("a", 20);
    AttemptHead("b", 10);
  }

  /** "The head is the last inserted surviving operation" fails once heads are removed: `b` joins after
      `a`, the host clock having been set back in between; `c` joins and is deleted again; `a` is promoted. */
  lemma FallbackIgnoresInsertionOrder(sandbox: Resource, rows: seq<Rows>, heads: seq<Heads>)
    requires ValidRow(RowKey(SandboxKind, "p", "s"), sandbox) && EligibleRow(sandbox)
    requires |rows| == 4 && IsRun(rows, heads)
    requires var owner, a, b, c := RowKey(SandboxKind, "p", "s"), OperationKey("p", "a"), OperationKey("p", "b"),
             OperationKey("p", "c");
             && rows[0] == map[owner := sandbox, a := Attempt("a", 20)]
             && rows[1] == rows[0][b := Attempt("b", 10)]
             && rows[2] == rows[1][c := Attempt("c", 30)]
             && rows[3] == rows[1]
    ensures var k := HeadKey("p", SandboxOwner, "s", PauseSandbox);
            && Get(heads[1], k) == Some(OperationKey("p", "b")) && Get(heads[2], k) == Some(OperationKey("p", "c"))
            && Get(heads[3], k) == Some(OperationKey("p", "a"))
  {
    hide SafeName, ValidId, HeadKeyOf, Follows, Newest, ValidRows, EligibleRow, Entered, Members, IsNewer;
    var k := HeadKey("p", SandboxOwner, "s", PauseSandbox);
    var b, c := OperationKey("p", "b"), OperationKey("p", "c");
    AttemptHead("b", 10);
    AttemptHead("c", 30);
    JoinedIsHead(heads[0], rows[0], heads[1], k, b, Attempt("b", 10));
    JoinedIsHead(heads[1], rows[1], heads[2], k, c, Attempt("c", 30));
    AttemptsRanked(sandbox, rows[1]);
    FollowsSound(heads[1], rows[1], rows[2], heads[2]);
    DeletedLeaves(rows[2], c, k);
    assert rows[3] == rows[2] - {c};
    RemovedHeadFallsBack(heads[2], rows[2], rows[3], k, OperationKey("p", "a"));
    HeadFollows(heads[2], rows[2], rows[3], heads[3], k);
  }

  // ---------- The table ----------

  /** `before` tells the old rows of the changed keys; nothing else differs from `base` to `rows`. */
  ghost predicate Changes(changed: set<RowKey>, before: Rows, base: Rows, rows: Rows) {
    && (forall o | o in changed :: (o in before <==> o in base) && (o in before ==> before[o] == base[o]))
    && (forall o | o !in changed :: (o in base <==> o in rows) && (o in base ==> base[o] == rows[o]))
  }

  function KeyIn(rows: Rows, o: RowKey): Option<HeadKey> {
    if o in rows then HeadKeyOf(rows[o]) else None
  }

  /** Rows whose deletion or change may require a fallback. */
  ghost predicate DirtyBy(dirty: set<HeadKey>, heads: Heads, base: Rows, rows: Rows, done: set<RowKey>) {
    forall k :: k in dirty <==> exists o :: o in done && o in Left(base, rows, k) && (k !in heads || heads[k] == o)
  }

  ghost predicate InsertedBy(inserted: Heads, base: Rows, rows: Rows, done: set<RowKey>) {
    forall k :: if k in inserted then Newest(rows, Entered(base, rows, k) * done, inserted[k])
        else Entered(base, rows, k) * done == {}
  }

  lemma DirtyNext(dirty: set<HeadKey>, dirty': set<HeadKey>, heads: Heads, base: Rows, rows: Rows, done: set<RowKey>,
                  o: RowKey)
    requires DirtyBy(dirty, heads, base, rows, done)
    requires var k := KeyIn(base, o);
             dirty' == if k.Some? && k != KeyIn(rows, o)
             && (k.value !in heads || heads[k.value] == o) then dirty + {k.value} else dirty
    ensures DirtyBy(dirty', heads, base, rows, done + {o})
  {
    hide HeadKeyOf;
    forall k ensures k in dirty' <==> exists q ::
        q in done + {o} && q in Left(base, rows, k)
        && (k !in heads || heads[k] == q) {
      assert o in Left(base, rows, k) <==> KeyIn(base, o) == Some(k) && KeyIn(rows, o) != Some(k);
    }
  }

  lemma InsertedNext(inserted: Heads, inserted': Heads, base: Rows, rows: Rows, done: set<RowKey>, o: RowKey)
    requires ValidRows(rows) && InsertedBy(inserted, base, rows, done) && o !in done
    requires var k := KeyIn(rows, o);
             if k.Some? && k != KeyIn(base, o) then
               && (k.value in inserted ==> inserted[k.value] in rows)
               && inserted' == if k.value !in inserted
               || IsNewer(rows[o], rows[inserted[k.value]]) then inserted[k.value := o] else inserted
             else inserted' == inserted
    ensures InsertedBy(inserted', base, rows, done + {o})
  {
    hide HeadKeyOf, IsNewer, ValidRows;
    forall k ensures if k in inserted' then Newest(rows, Entered(base, rows, k) * (done + {o}), inserted'[k])
                     else Entered(base, rows, k) * (done + {o}) == {} {
      var entered := Entered(base, rows, k);
      assert o in entered <==> KeyIn(rows, o) == Some(k) && KeyIn(base, o) != Some(k);
      if o in entered {
        assert entered * (done + {o}) == entered * done + {o};
        if k in inserted {
          NewestNext(rows, entered * done, inserted[k], o, k);
        } else {
          assert entered * done + {o} == {o};
        }
      } else {
        assert entered * (done + {o}) == entered * done;
      }
    }
  }

  /** The heads in `done` have been set to their targets, except that an ineligible owner only loses heads. */
  ghost predicate Written(heads: Heads, prev: Heads, rows: Rows, done: set<HeadKey>,
                          target: map<HeadKey, Option<RowKey>>)
    requires done <= target.Keys
  {
    forall k :: if Eligible(rows, k) then Get(heads, k) == (if k in done then target[k] else Get(prev, k))
                else Get(heads, k) == None || Get(heads, k) == Get(prev, k)
  }

  predicate SameOwner(h: HeadKey, k: HeadKey) {
    OwnerRow(h) == OwnerRow(k)
  }

  /** How one head may change: set for an eligible owner; an ineligible owner only loses heads. */
  ghost predicate Puts(heads: Heads, heads': Heads, rows: Rows, k: HeadKey, to: Option<RowKey>) {
    forall h ::
      if h == k && Eligible(rows, k) then Get(heads', h) == to
      else
        || Get(heads', h) == Get(heads, h)
        || (!Eligible(rows, k) && SameOwner(h, k) && Get(heads', h) == None)
  }

  lemma WrittenNext(heads: Heads, heads': Heads, prev: Heads, rows: Rows, done: set<HeadKey>, k: HeadKey,
                    target: map<HeadKey, Option<RowKey>>)
    requires done <= target.Keys && k in target && Written(heads, prev, rows, done, target)
             && Puts(heads, heads', rows, k, target[k])
    ensures Written(heads', prev, rows, done + {k}, target)
  {
    hide EligibleRow;
    forall h ensures if Eligible(rows, h) then Get(heads', h) == (if h in done + {k} then target[h] else Get(prev, h))
                     else Get(heads', h) == None || Get(heads', h) == Get(prev, h) {
      assert SameOwner(h, k) ==> Eligible(rows, h) == Eligible(rows, k);
    }
  }

  /** Changed owners that had a row and are no longer eligible. */
  predicate Retired(before: Rows, rows: Rows, q: RowKey) {
    q in before && !(q in rows && EligibleRow(rows[q]))
  }

  ghost predicate Pruned(heads: Heads, prev: Heads, before: Rows, rows: Rows, done: set<RowKey>) {
    forall k :: Get(heads, k) == if OwnerRow(k) in done
        && Retired(before, rows, OwnerRow(k)) then None else Get(prev, k)
  }

  class Table {
    var heads: Heads

    constructor ()
      ensures heads == map[]
    {
      heads := map[];
    }

    /** The foreign key's cascade when an operation row is deleted. */
    method Cascade(o: RowKey)
      modifies this
      ensures forall k :: Get(heads, k) == if old(Get(heads, k)) == Some(o) then None else old(Get(heads, k))
    {
      heads := map k | k in heads && heads[k] != o :: heads[k];
    }

    method DeleteOwnerHeads(q: RowKey)
      modifies this
      ensures forall k :: Get(heads, k) == if OwnerRow(k) == q then None else old(Get(heads, k))
    {
      heads := map k | k in heads && OwnerRow(k) != q :: heads[k];
    }

    /** Scans the operations in any order for the newest of one family. */
    method SelectNewest(rows: Rows, k: HeadKey) returns (r: Option<RowKey>)
      requires ValidRows(rows)
      ensures r == NewestOf(rows, Members(rows, k))
    {
      hide IsNewer, HeadKeyOf, ValidRows;
      r := None;
      var pending := rows.Keys;
      while pending != {}
        invariant pending <= rows.Keys
        invariant if r.Some? then Newest(rows, Members(rows, k) - pending, r.value)
                  else Members(rows, k) - pending == {}
        decreases pending
      {
        var o :| o in pending;
        ghost var seen := Members(rows, k) - pending;
        if Member(rows, o, k) {
          assert Members(rows, k) - (pending - {o}) == seen + {o};
          if r.None? {
            r := Some(o);
          } else {
            NewestNext(rows, seen, r.value, o, k);
            if IsNewer(rows[o], rows[r.value]) {
              r := Some(o);
            }
          }
        } else {
          assert Members(rows, k) - (pending - {o}) == seen;
        }
        pending := pending - {o};
      }
      assert Members(rows, k) - pending == Members(rows, k);
      if r.Some? {
        NewestIs(rows, Members(rows, k), r.value);
      } else {
        NoneIsNewest(rows);
      }
    }

    /** Makes `o` the head unless the current head is newer. */
    method Upsert(rows: Rows, k: HeadKey, o: RowKey)
      requires Member(rows, o, k) && (k in heads ==> heads[k] in rows)
      modifies this
      ensures var keep := k in old(heads) && old(heads)[k] != o && !IsNewer(rows[o], rows[old(heads)[k]]);
              Puts(old(heads), heads, rows, k, if keep then old(Get(heads, k)) else Some(o))
    {
      if !Eligible(rows, k) {
        DeleteOwnerHeads(OwnerRow(k));
        return;
      }
      if k in heads && heads[k] != o && !IsNewer(rows[o], rows[heads[k]]) {
        return;
      }
      heads := heads[k := o];
    }

    method Replace(rows: Rows, k: HeadKey, o: RowKey)
      requires Member(rows, o, k)
      modifies this
      ensures Puts(old(heads), heads, rows, k, Some(o))
    {
      if !Eligible(rows, k) {
        DeleteOwnerHeads(OwnerRow(k));
        return;
      }
      heads := heads[k := o];
    }

    method Refresh(rows: Rows, k: HeadKey)
      requires ValidRows(rows)
      modifies this
      ensures Puts(old(heads), heads, rows, k, NewestOf(rows, Members(rows, k)))
    {
      hide IsNewer, HeadKeyOf, ValidRows, EligibleRow;
      heads := heads - {k};
      var newest := SelectNewest(rows, k);
      if newest.Some? {
        NewestExists(rows, Members(rows, k), k);
        Upsert(rows, k, newest.value);
      }
    }

    /** Brings the heads from the old rows to the new ones. Each of the four passes may run in any order. */
    method Sync(changed: set<RowKey>, before: Rows, rows: Rows, ghost base: Rows, ghost prior: Heads)
      requires ValidRows(base) && ValidRows(rows) && Changes(changed, before, base, rows) && Sound(prior, base)
      requires Cascaded(heads, prior, rows)
      modifies this
      ensures Follows(prior, base, rows, heads)
    {
      hide IsNewer, HeadKeyOf, ValidRows, EligibleRow, Eligible, Follows, Sound, Cascaded, Changes, DirtyBy,
           InsertedBy, Written, Puts, Pruned;
      ghost var cascaded := heads;
      var operations := set o | o in changed && o.kind == OperationKind;
      var dirty, inserted := Collect(operations, changed, before, rows, base);
      ghost var newest := map k | k in dirty :: NewestOf(rows, Members(rows, k));
      var keys := dirty;
      assert dirty - keys == {};
      WrittenNothing(heads, rows, newest);
      while keys != {}
        invariant keys <= dirty && newest.Keys == dirty && Written(heads, cascaded, rows, dirty - keys, newest)
        decreases keys
      {
        var k :| k in keys;
        ghost var was := heads;
        Refresh(rows, k);
        WrittenNext(was, heads, cascaded, rows, dirty - keys, k, newest);
        assert dirty - (keys - {k}) == dirty - keys + {k};
        keys := keys - {k};
      }
      assert dirty - keys == dirty;
      ghost var refreshed := heads;
      ghost var joined := map k | k in inserted :: Some(inserted[k]);
      keys := inserted.Keys;
      assert inserted.Keys - keys == {};
      WrittenNothing(heads, rows, joined);
      while keys != {}
        invariant keys <= inserted.Keys && joined.Keys == inserted.Keys
                  && Written(heads, refreshed, rows, inserted.Keys - keys, joined)
        decreases keys
      {
        var k :| k in keys;
        ghost var was := heads;
        InsertedIsMember(inserted, base, rows, operations, k);
        Replace(rows, k, inserted[k]);
        WrittenNext(was, heads, refreshed, rows, inserted.Keys - keys, k, joined);
        assert inserted.Keys - (keys - {k}) == inserted.Keys - keys + {k};
        keys := keys - {k};
      }
      assert inserted.Keys - keys == inserted.Keys;
      ghost var replaced := heads;
      var owners := set q | q in changed && (q.kind == SandboxKind || q.kind == WorkspaceKind);
      var pending := owners;
      assert owners - pending == {};
      PrunedNothing(heads, before, rows);
      while pending != {}
        invariant pending <= owners && Pruned(heads, replaced, before, rows, owners - pending)
        decreases pending
      {
        var q :| q in pending;
        ghost var was := heads;
        if Retired(before, rows, q) {
          DeleteOwnerHeads(q);
        }
        PrunedNext(was, heads, replaced, before, rows, owners - pending, q);
        assert owners - (pending - {q}) == owners - pending + {q};
        pending := pending - {q};
      }
      assert owners - pending == owners;
      PassesFollow(changed, before, rows, base, prior, cascaded, dirty, inserted, refreshed, replaced, heads);
    }

    /** Each family's newest operation, from one scan of the rows in any order. */
    method SelectAll(rows: Rows) returns (newest: Heads)
      requires ValidRows(rows)
      ensures InsertedBy(newest, map[], rows, rows.Keys)
    {
      hide IsNewer, HeadKeyOf, ValidRows, InsertedBy, Member;
      newest := map[];
      var pending := rows.Keys;
      assert rows.Keys - pending == {};
      CollectedNothing(heads, map[], rows);
      while pending != {}
        invariant pending <= rows.Keys && InsertedBy(newest, map[], rows, rows.Keys - pending)
        decreases pending
      {
        var o :| o in pending;
        ghost var newest0, done := newest, rows.Keys - pending;
        var key := HeadKeyOf(rows[o]);
        if key.Some? {
          if key.value in newest {
            InsertedIsMember(newest, map[], rows, done, key.value);
            MemberIsRow(rows, newest[key.value], key.value);
          }
          if key.value !in newest || IsNewer(rows[o], rows[newest[key.value]]) {
            newest := newest[key.value := o];
          }
        }
        InsertedNext(newest0, newest, map[], rows, done, o);
        assert rows.Keys - (pending - {o}) == done + {o};
        pending := pending - {o};
      }
      assert rows.Keys - pending == rows.Keys;
    }

    method Rebuild(rows: Rows)
      requires ValidRows(rows)
      modifies this
      ensures Rebuilt(heads, rows)
    {
      hide IsNewer, HeadKeyOf, ValidRows, EligibleRow, Eligible, InsertedBy, Written, Puts, Rebuilt, Member;
      var newest := SelectAll(rows);
      heads := map[];
      ghost var target := map k | k in newest :: Some(newest[k]);
      var keys := newest.Keys;
      assert newest.Keys - keys == {};
      WrittenNothing(heads, rows, target);
      while keys != {}
        invariant keys <= newest.Keys && target.Keys == newest.Keys
                  && Written(heads, map[], rows, newest.Keys - keys, target)
        decreases keys
      {
        var k :| k in keys;
        ghost var was := heads;
        InsertedIsMember(newest, map[], rows, rows.Keys, k);
        UnwrittenIsAbsent(heads, rows, newest.Keys - keys, target, k);
        Upsert(rows, k, newest[k]);
        WrittenNext(was, heads, map[], rows, newest.Keys - keys, k, target);
        assert newest.Keys - (keys - {k}) == newest.Keys - keys + {k};
        keys := keys - {k};
      }
      assert newest.Keys - keys == newest.Keys;
      WrittenIsRebuilt(heads, rows, newest);
    }

    /** The operations recovery has to look at, and whether every head names one of its own family. */
    method ListForReconcile(rows: Rows) returns (consistent: bool, operations: set<RowKey>)
      ensures consistent <==> forall k | k in heads :: Member(rows, heads[k], k)
      ensures consistent ==> forall o :: o in operations <==>
              o in Named(heads, rows) && rows[o].Operation?
              && rows[o].progress != Succeeded
      ensures Sound(heads, rows) ==> consistent
    {
      hide EligibleRow;
      operations := {};
      var pending := heads.Keys;
      while pending != {}
        invariant pending <= heads.Keys
        invariant forall k | k in heads && k !in pending :: Member(rows, heads[k], k)
        invariant forall o :: o in operations <==>
                    exists k :: k in heads && k !in pending && heads[k] == o && rows[o].Operation?
                        && rows[o].progress != Succeeded
        decreases pending
      {
        var k :| k in pending;
        var o := heads[k];
        if !Member(rows, o, k) {
          return false, {};
        }
        if rows[o].progress != Succeeded {
          operations := operations + {o};
        }
        pending := pending - {k};
      }
      return true, operations;
    }

    /** The first pass: families that may need a fallback, and each family's newest arrival. */
    method Collect(operations: set<RowKey>, ghost changed: set<RowKey>, before: Rows, rows: Rows, ghost base: Rows)
      returns (dirty: set<HeadKey>, inserted: Heads)
      requires ValidRows(rows) && Changes(changed, before, base, rows) && operations <= changed
      ensures DirtyBy(dirty, heads, base, rows, operations) && InsertedBy(inserted, base, rows, operations)
    {
      hide IsNewer, HeadKeyOf, ValidRows, DirtyBy, InsertedBy;
      dirty, inserted := {}, map[];
      var pending := operations;
      assert operations - pending == {};
      CollectedNothing(heads, base, rows);
      while pending != {}
        invariant pending <= operations
        invariant DirtyBy(dirty, heads, base, rows, operations - pending)
                  && InsertedBy(inserted, base, rows, operations - pending)
        decreases pending
      {
        var o :| o in pending;
        ghost var done := operations - pending;
        var was, now := KeyIn(before, o), KeyIn(rows, o);
        assert was == KeyIn(base, o);
        ghost var dirty0, inserted0 := dirty, inserted;
        if was.Some? && was != now && (was.value !in heads || heads[was.value] == o) {
          dirty := dirty + {was.value};
        }
        DirtyNext(dirty0, dirty, heads, base, rows, done, o);
        if now.Some? && now != was {
          if now.value in inserted {
            InsertedIsMember(inserted, base, rows, done, now.value);
          }
          if now.value !in inserted || IsNewer(rows[o], rows[inserted[now.value]]) {
            inserted := inserted[now.value := o];
          }
        }
        InsertedNext(inserted0, inserted, base, rows, done, o);
        assert operations - (pending - {o}) == done + {o};
        pending := pending - {o};
      }
      assert operations - pending == operations;
    }
  }

  /** The heads once deleted operations have taken theirs along. */
  ghost predicate Cascaded(heads: Heads, prior: Heads, rows: Rows) {
    forall k :: Get(heads, k) == if k in prior && prior[k] in rows then Some(prior[k]) else None
  }

  lemma CollectedNothing(heads: Heads, base: Rows, rows: Rows)
    ensures DirtyBy({}, heads, base, rows, {}) && InsertedBy(map[], base, rows, {})
  {
    hide HeadKeyOf;
  }

  lemma WrittenNothing(heads: Heads, rows: Rows, target: map<HeadKey, Option<RowKey>>)
    ensures Written(heads, heads, rows, {}, target)
  {
    hide EligibleRow;
  }

  lemma PrunedNothing(heads: Heads, before: Rows, rows: Rows)
    ensures Pruned(heads, heads, before, rows, {})
  {
    hide EligibleRow;
  }

  lemma PrunedNext(heads: Heads, heads': Heads, prev: Heads, before: Rows, rows: Rows, done: set<RowKey>, q: RowKey)
    requires Pruned(heads, prev, before, rows, done)
    requires forall k :: Get(heads', k) == if Retired(before, rows, q) && OwnerRow(k) == q then None else Get(heads, k)
    ensures Pruned(heads', prev, before, rows, done + {q})
  {
    hide EligibleRow;
  }

  lemma InsertedIsMember(inserted: Heads, base: Rows, rows: Rows, done: set<RowKey>, k: HeadKey)
    requires InsertedBy(inserted, base, rows, done) && k in inserted
    ensures Member(rows, inserted[k], k)
  {
    hide HeadKeyOf, IsNewer;
  }

  /** The four passes together. */
  lemma PassesFollow(changed: set<RowKey>, before: Rows, rows: Rows, base: Rows, prior: Heads, cascaded: Heads,
                     dirty: set<HeadKey>, inserted: Heads, refreshed: Heads, replaced: Heads, heads: Heads)
    requires ValidRows(base) && ValidRows(rows) && Changes(changed, before, base, rows) && Sound(prior, base)
             && Cascaded(cascaded, prior, rows)
    requires var operations := set o | o in changed && o.kind == OperationKind;
             DirtyBy(dirty, cascaded, base, rows, operations) && InsertedBy(inserted, base, rows, operations)
    requires Written(refreshed, cascaded, rows, dirty, map k | k in dirty :: NewestOf(rows, Members(rows, k)))
    requires Written(replaced, refreshed, rows, inserted.Keys, map k | k in inserted :: Some(inserted[k]))
    requires Pruned(heads, replaced, before, rows, set q | q in changed
                    && (q.kind == SandboxKind || q.kind == WorkspaceKind))
    ensures Follows(prior, base, rows, heads)
  {
    hide IsNewer, HeadKeyOf, ValidRows, EligibleRow, Eligible, Sound, Cascaded, Changes, DirtyBy, InsertedBy, Written,
         Pruned, HeadAfter;
    forall k ensures Get(heads, k) == HeadAfter(prior, base, rows, k) {
      if Eligible(rows, k) {
        EligibleFollows(changed, before, rows, base, prior, cascaded, dirty, inserted, refreshed, replaced, heads, k);
      } else {
        IneligibleFollows(changed, before, rows, base, prior, cascaded, dirty, inserted, refreshed, replaced, heads, k);
      }
    }
  }

  lemma FamilyChangesAreOperations(changed: set<RowKey>, before: Rows, rows: Rows, base: Rows, k: HeadKey)
    requires ValidRows(base) && ValidRows(rows) && Changes(changed, before, base, rows)
    ensures var operations := set o | o in changed && o.kind == OperationKind;
            Entered(base, rows, k) * operations == Entered(base, rows, k) && Left(base, rows, k) <= operations
  {
    hide SafeName, ValidId;
    forall o | Member(base, o, k) || Member(rows, o, k) ensures o.kind == OperationKind {
      assert o in base ==> ValidRow(o, base[o]);
      assert o in rows ==> ValidRow(o, rows[o]);
    }
  }

  lemma EligibleFollows(changed: set<RowKey>, before: Rows, rows: Rows, base: Rows, prior: Heads, cascaded: Heads,
                        dirty: set<HeadKey>, inserted: Heads, refreshed: Heads, replaced: Heads, heads: Heads,
                        k: HeadKey)
    requires ValidRows(base) && ValidRows(rows) && Changes(changed, before, base, rows) && Sound(prior, base)
             && Cascaded(cascaded, prior, rows)
    requires var operations := set o | o in changed && o.kind == OperationKind;
             DirtyBy(dirty, cascaded, base, rows, operations) && InsertedBy(inserted, base, rows, operations)
    requires Written(refreshed, cascaded, rows, dirty, map h | h in dirty :: NewestOf(rows, Members(rows, h)))
    requires Written(replaced, refreshed, rows, inserted.Keys, map h | h in inserted :: Some(inserted[h]))
    requires Pruned(heads, replaced, before, rows, set q | q in changed
                    && (q.kind == SandboxKind || q.kind == WorkspaceKind))
    requires Eligible(rows, k)
    ensures Get(heads, k) == HeadAfter(prior, base, rows, k)
  {
    hide IsNewer, HeadKeyOf, ValidRows, EligibleRow, Changes;
    FamilyChangesAreOperations(changed, before, rows, base, k);
    assert !Retired(before, rows, OwnerRow(k));
    assert Get(heads, k) == Get(replaced, k);
    if k in inserted {
      NewestIs(rows, Entered(base, rows, k), inserted[k]);
    } else {
      assert Get(replaced, k) == Get(refreshed, k) && Entered(base, rows, k) == {};
      var left := Left(base, rows, k);
      if k in prior && Member(rows, prior[k], k) {
        assert k !in dirty;
      } else {
        if k in prior {
          assert Member(base, prior[k], k) && prior[k] in left;
        }
        if left != {} {
          var o :| o in left && (k in prior ==> o == prior[k]);
          assert k in dirty;
        }
      }
    }
  }

  lemma IneligibleFollows(changed: set<RowKey>, before: Rows, rows: Rows, base: Rows, prior: Heads, cascaded: Heads,
                          dirty: set<HeadKey>, inserted: Heads, refreshed: Heads, replaced: Heads, heads: Heads,
                          k: HeadKey)
    requires Changes(changed, before, base, rows) && Sound(prior, base) && Cascaded(cascaded, prior, rows)
    requires Written(refreshed, cascaded, rows, dirty, map h | h in dirty :: NewestOf(rows, Members(rows, h)))
    requires Written(replaced, refreshed, rows, inserted.Keys, map h | h in inserted :: Some(inserted[h]))
    requires Pruned(heads, replaced, before, rows, set q | q in changed
                    && (q.kind == SandboxKind || q.kind == WorkspaceKind))
    requires !Eligible(rows, k)
    ensures Get(heads, k) == HeadAfter(prior, base, rows, k)
  {
    hide IsNewer, HeadKeyOf, EligibleRow;
    if k in prior {
      assert Eligible(base, k);
      assert Retired(before, rows, OwnerRow(k));
    }
  }

  ghost function Named(heads: Heads, rows: Rows): set<RowKey> {
    set k | k in heads && heads[k] in rows :: heads[k]
  }

  lemma MemberIsRow(rows: Rows, o: RowKey, k: HeadKey)
    requires Member(rows, o, k)
    ensures o in rows
  {
  }

  lemma UnwrittenIsAbsent(heads: Heads, rows: Rows, done: set<HeadKey>, target: map<HeadKey, Option<RowKey>>,
                          k: HeadKey)
    requires done <= target.Keys && k !in done && Written(heads, map[], rows, done, target)
    ensures k !in heads
  {
    hide EligibleRow;
    assert Get(heads, k) == None;
  }

  lemma WrittenIsRebuilt(heads: Heads, rows: Rows, newest: Heads)
    requires InsertedBy(newest, map[], rows, rows.Keys)
    requires Written(heads, map[], rows, newest.Keys, map k | k in newest :: Some(newest[k]))
    ensures Rebuilt(heads, rows)
  {
    hide IsNewer, HeadKeyOf, EligibleRow;
    forall k ensures Get(heads, k) == if Eligible(rows, k) then NewestOf(rows, Members(rows, k)) else None {
      assert Entered(map[], rows, k) * rows.Keys == Members(rows, k);
      if k in newest {
        NewestIs(rows, Members(rows, k), newest[k]);
      } else {
        NoneIsNewest(rows);
      }
    }
  }
}
