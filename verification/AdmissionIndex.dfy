/** The derived admission indexes (internal/store/sqlite_admission.go): capacity counters and the table of
    active workspace mounts, maintained row by row and equal to what a rebuild would compute. */
module AdmissionIndex {
  import opened Identifiers
  import opened Records

  datatype Table = SandboxCapacity | WorkspaceCapacity | EnvironmentCapacity

  /** A counter's name is a project; the sandbox table also has a total under the empty name. */
  datatype Counter = Counter(table: Table, name: string)

  const TOTAL: string := ""

  datatype MountKey = MountKey(projectId: string, workspaceId: string)

  predicate CountsSandbox(r: Resource) {
    r.Sandbox? && !Terminal(r.state)
  }

  predicate CountsWorkspace(r: Resource) {
    r.Workspace? && r.standing != WorkspaceDeleted && r.standing != WorkspaceFailed
  }

  /** The counters a row adds one to. */
  function Charges(r: Resource): set<Counter> {
    if CountsSandbox(r) then {Counter(SandboxCapacity, TOTAL), Counter(SandboxCapacity, r.projectId)}
    else if CountsWorkspace(r) then {Counter(WorkspaceCapacity, r.projectId)}
    else if r.Environment? then {Counter(EnvironmentCapacity, r.projectId)}
    else {}
  }

  predicate Attaches(r: Resource, m: MountKey) {
    CountsSandbox(r) && r.projectId == m.projectId && m.workspaceId in r.mounts
  }

  predicate NoRepeat(s: seq<string>) {
    forall i, j | 0 <= i < j < |s| :: s[i] != s[j]
  }

  // ---------- What the indexes mean ----------

  ghost function Charged(rows: map<RowKey, Resource>, c: Counter): set<RowKey> {
    set k | k in rows && c in Charges(rows[k])
  }

  /** No workspace is mounted twice by active sandboxes. */
  ghost predicate SingleMounts(rows: map<RowKey, Resource>) {
    && (forall k | k in rows && CountsSandbox(rows[k]) :: NoRepeat(rows[k].mounts))
    && (forall j, k, m | j in rows && k in rows && Attaches(rows[j], m) && Attaches(rows[k], m) :: j == k)
  }

  function Read(capacity: map<Counter, int>, c: Counter): int {
    if c in capacity then capacity[c] else 0
  }

  ghost predicate CountersMatch(capacity: map<Counter, int>, rows: map<RowKey, Resource>) {
    forall c :: Read(capacity, c) == |Charged(rows, c)|
  }

  ghost predicate MountsMatch(mounts: map<MountKey, RowKey>, rows: map<RowKey, Resource>) {
    && (forall m | m in mounts :: mounts[m] in rows && Attaches(rows[mounts[m]], m))
    && (forall k, m | k in rows && Attaches(rows[k], m) :: m in mounts && mounts[m] == k)
  }

  ghost predicate IndexesMatch(capacity: map<Counter, int>, mounts: map<MountKey, RowKey>,
                               rows: map<RowKey, Resource>) {
    CountersMatch(capacity, rows) && MountsMatch(mounts, rows) && SingleMounts(rows)
  }

  lemma MatchesSingle(capacity: map<Counter, int>, mounts: map<MountKey, RowKey>, rows: map<RowKey, Resource>)
    requires IndexesMatch(capacity, mounts, rows)
    ensures SingleMounts(rows)
  {
  }

  /** A sandbox that takes up capacity and holds its workspaces. */
  predicate Occupies(r: Resource) {
    r.Sandbox? && r.state !in {Deleted, Expired, Failed}
  }

  /** What the sandbox counters count: sandboxes that are not terminal, in all and per project. */
  lemma SandboxCountersMean(capacity: map<Counter, int>, rows: map<RowKey, Resource>, p: string)
    requires CountersMatch(capacity, rows) && ValidRows(rows) && p != TOTAL
    ensures Read(capacity, Counter(SandboxCapacity, TOTAL)) == |set k | k in rows && Occupies(rows[k])|
    ensures Read(capacity, Counter(SandboxCapacity, p))
            == |set k | k in rows && Occupies(rows[k]) && rows[k].projectId == p|
  {
    hide ValidRow;
    forall k | k in rows ensures rows[k].projectId != TOTAL {
      ProjectIsNamed(k, rows[k]);
    }
    assert Charged(rows, Counter(SandboxCapacity, TOTAL)) == set k | k in rows && Occupies(rows[k]);
    assert Charged(rows, Counter(SandboxCapacity, p))
           == set k | k in rows && Occupies(rows[k]) && rows[k].projectId == p;
  }

  /** The workspace counter: workspaces that are neither deleted nor failed. */
  lemma WorkspaceCounterMeans(capacity: map<Counter, int>, rows: map<RowKey, Resource>, p: string)
    requires CountersMatch(capacity, rows)
    ensures Read(capacity, Counter(WorkspaceCapacity, p))
            == |set k | k in rows && rows[k].Workspace? && rows[k].standing !in {WorkspaceDeleted, WorkspaceFailed}
                        && rows[k].projectId == p|
  {
    assert Charged(rows, Counter(WorkspaceCapacity, p))
           == set k | k in rows && rows[k].Workspace? && rows[k].standing !in {WorkspaceDeleted, WorkspaceFailed}
                      && rows[k].projectId == p;
  }

  lemma EnvironmentCounterMeans(capacity: map<Counter, int>, rows: map<RowKey, Resource>, p: string)
    requires CountersMatch(capacity, rows)
    ensures Read(capacity, Counter(EnvironmentCapacity, p))
            == |set k | k in rows && rows[k].Environment? && rows[k].projectId == p|
  {
    assert Charged(rows, Counter(EnvironmentCapacity, p))
           == set k | k in rows && rows[k].Environment? && rows[k].projectId == p;
  }

  /** What the mount index holds: for each mounted workspace the one active sandbox that mounts it. */
  lemma MountsMean(mounts: map<MountKey, RowKey>, rows: map<RowKey, Resource>, k: RowKey, m: MountKey)
    requires MountsMatch(mounts, rows)
    ensures m in mounts && mounts[m] == k <==>
              k in rows && Occupies(rows[k]) && rows[k].projectId == m.projectId && m.workspaceId in rows[k].mounts
  {
    assert m in mounts ==> Attaches(rows[mounts[m]], m);
    assert k in rows && Attaches(rows[k], m) ==> m in mounts && mounts[m] == k;
  }

  /** The rows decide the indexes: two indexes that match the same rows are equal but for zero counters. */
  lemma IndexesDetermined(c0: map<Counter, int>, m0: map<MountKey, RowKey>, c1: map<Counter, int>,
                          m1: map<MountKey, RowKey>,
                          rows: map<RowKey, Resource>)
    requires IndexesMatch(c0, m0, rows) && IndexesMatch(c1, m1, rows)
    ensures m0 == m1 && forall c :: Read(c0, c) == Read(c1, c)
  {
    hide CountsSandbox, SingleMounts;
    assert forall m | m in m0 :: m in m1 && m1[m] == m0[m];
    assert forall m | m in m1 :: m in m0;
  }

  // ---------- One row ----------

  lemma ChargedWithout(rows: map<RowKey, Resource>, k: RowKey, c: Counter)
    requires k in rows
    ensures |Charged(rows, c)| == |Charged(rows - {k}, c)| + (if c in Charges(rows[k]) then 1 else 0)
  {
    hide Charges;
    if c in Charges(rows[k]) {
      assert Charged(rows, c) == Charged(rows - {k}, c) + {k};
    } else {
      assert Charged(rows, c) == Charged(rows - {k}, c);
    }
  }

  lemma ChargedWith(rows: map<RowKey, Resource>, k: RowKey, r: Resource, c: Counter)
    requires k !in rows
    ensures |Charged(rows[k := r], c)| == |Charged(rows, c)| + (if c in Charges(r) then 1 else 0)
  {
    hide Charges;
    ChargedWithout(rows[k := r], k, c);
    assert rows[k := r] - {k} == rows;
  }

  lemma SingleMountsSub(part: map<RowKey, Resource>, rows: map<RowKey, Resource>)
    requires SingleMounts(rows) && forall k | k in part :: k in rows && rows[k] == part[k]
    ensures SingleMounts(part)
  {
    hide CountsSandbox, Attaches, NoRepeat;
  }

  /** Removing a row's mounts by its key removes exactly that row's. */
  lemma MountsWithout(mounts: map<MountKey, RowKey>, rows: map<RowKey, Resource>, k: RowKey)
    requires MountsMatch(mounts, rows) && k in rows
    ensures MountsMatch(map m | m in mounts && mounts[m] != k :: mounts[m], rows - {k})
  {
    hide Attaches;
  }

  /** The mounts inserted so far: the other rows' and the first `n` of this row's. */
  ghost predicate PartlyMounted(mounts: map<MountKey, RowKey>, rows: map<RowKey, Resource>, k: RowKey, r: Resource,
                                n: nat)
    requires r.Sandbox? && n <= |r.mounts|
  {
    && (forall m | m in mounts :: (mounts[m] in rows && Attaches(rows[mounts[m]], m))
                                  || (mounts[m] == k && m.projectId == r.projectId && m.workspaceId in r.mounts[..n]))
    && (forall j, m | j in rows && Attaches(rows[j], m) :: m in mounts && mounts[m] == j)
    && (forall i | 0 <= i < n ::
        MountKey(r.projectId, r.mounts[i]) in mounts
        && mounts[MountKey(r.projectId, r.mounts[i])] == k)
    && NoRepeat(r.mounts[..n])
  }

  /** An insert that hits the primary key proves a workspace mounted twice. */
  lemma CollisionIsDouble(mounts: map<MountKey, RowKey>, rows: map<RowKey, Resource>, k: RowKey, r: Resource, n: nat)
    requires r.Sandbox? && n < |r.mounts| && CountsSandbox(r) && k !in rows && PartlyMounted(mounts, rows, k, r, n)
    requires MountKey(r.projectId, r.mounts[n]) in mounts
    ensures !SingleMounts(rows[k := r])
  {
    var m := MountKey(r.projectId, r.mounts[n]);
    var all := rows[k := r];
    assert Attaches(all[k], m);
    if mounts[m] in rows && Attaches(rows[mounts[m]], m) {
      assert Attaches(all[mounts[m]], m) && mounts[m] != k;
    } else {
      var i :| 0 <= i < n && r.mounts[..n][i] == r.mounts[n];
      assert !NoRepeat(all[k].mounts);
    }
  }

  lemma NextMount(mounts: map<MountKey, RowKey>, rows: map<RowKey, Resource>, k: RowKey, r: Resource, n: nat)
    requires r.Sandbox? && n < |r.mounts| && k !in rows && PartlyMounted(mounts, rows, k, r, n)
    requires MountKey(r.projectId, r.mounts[n]) !in mounts
    ensures PartlyMounted(mounts[MountKey(r.projectId, r.mounts[n]) := k], rows, k, r, n + 1)
  {
    hide CountsSandbox, Attaches, NoRepeat;
    assert r.mounts[..n + 1] == r.mounts[..n] + [r.mounts[n]];
    NoRepeatNext(r.mounts[..n], r.mounts[n]);
  }

  lemma NoRepeatNext(s: seq<string>, x: string)
    requires NoRepeat(s) && x !in s
    ensures NoRepeat(s + [x])
  {
  }

  lemma FullyMatched(mounts: map<MountKey, RowKey>, rows: map<RowKey, Resource>, k: RowKey, r: Resource)
    requires r.Sandbox? && CountsSandbox(r) && k !in rows && PartlyMounted(mounts, rows, k, r, |r.mounts|)
    ensures MountsMatch(mounts, rows[k := r])
  {
    hide CountsSandbox, NoRepeat;
    var all := rows[k := r];
    assert r.mounts[..|r.mounts|] == r.mounts;
    forall j, m | j in all && Attaches(all[j], m) ensures m in mounts && mounts[m] == j {
      if j == k {
        var i :| 0 <= i < |r.mounts| && r.mounts[i] == m.workspaceId;
        assert m == MountKey(r.projectId, r.mounts[i]);
      }
    }
  }

  lemma FullyMounted(mounts: map<MountKey, RowKey>, rows: map<RowKey, Resource>, k: RowKey, r: Resource)
    requires r.Sandbox? && CountsSandbox(r) && k !in rows && SingleMounts(rows)
             && PartlyMounted(mounts, rows, k, r, |r.mounts|)
    ensures MountsMatch(mounts, rows[k := r]) && SingleMounts(rows[k := r])
  {
    hide CountsSandbox, NoRepeat, Attaches, MountsMatch;
    assert r.mounts[..|r.mounts|] == r.mounts;
    FullyMatched(mounts, rows, k, r);
    MatchedMountsAreSingle(mounts, rows[k := r]);
  }

  lemma MatchedMountsAreSingle(mounts: map<MountKey, RowKey>, rows: map<RowKey, Resource>)
    requires MountsMatch(mounts, rows) && forall k | k in rows && CountsSandbox(rows[k]) :: NoRepeat(rows[k].mounts)
    ensures SingleMounts(rows)
  {
    hide CountsSandbox, NoRepeat, Attaches;
    forall j, k, m | j in rows && k in rows && Attaches(rows[j], m) && Attaches(rows[k], m) ensures j == k {
      assert mounts[m] == j;
    }
  }

  lemma UnmountedRow(mounts: map<MountKey, RowKey>, rows: map<RowKey, Resource>, k: RowKey, r: Resource)
    requires MountsMatch(mounts, rows) && SingleMounts(rows) && k !in rows && !CountsSandbox(r)
    ensures MountsMatch(mounts, rows[k := r]) && SingleMounts(rows[k := r])
  {
    hide NoRepeat;
    assert forall m :: !Attaches(r, m);
  }

  // ---------- The tables ----------

  class Tables {
    var capacity: map<Counter, int>
    var mounts: map<MountKey, RowKey>

    ghost predicate Matches(rows: map<RowKey, Resource>)
      reads this
    {
      IndexesMatch(capacity, mounts, rows)
    }

    constructor ()
      ensures Matches(map[])
    {
      capacity, mounts := map[Counter(SandboxCapacity, TOTAL) := 0], map[];
      new;
      assert forall c :: Charged(map[], c) == {};
    }

    method ChangeCapacity(c: Counter, delta: int) returns (ok: bool)
      modifies this`capacity
      ensures capacity == old(capacity)[c := old(Read(capacity, c)) + delta]
      ensures ok <==> Read(capacity, c) >= 0
    {
      capacity := capacity[c := Read(capacity, c) + delta];
      ok := capacity[c] >= 0;
    }

    /** Adds `delta` to every counter the row is charged to; a sandbox's total comes first. */
    method ChangeCharges(r: Resource, delta: int) returns (ok: bool)
      requires r.projectId != TOTAL && (delta < 0 ==> forall c | c in Charges(r) :: Read(capacity, c) + delta >= 0)
      requires forall c | c in Charges(r) :: Read(capacity, c) >= 0
      modifies this`capacity
      ensures ok
      ensures forall c :: Read(capacity, c) == old(Read(capacity, c)) + (if c in Charges(r) then delta else 0)
    {
      ok := true;
      if CountsSandbox(r) {
        ok := ChangeCapacity(Counter(SandboxCapacity, TOTAL), delta);
        if !ok {
          return;
        }
        ok := ChangeCapacity(Counter(SandboxCapacity, r.projectId), delta);
      } else if CountsWorkspace(r) {
        ok := ChangeCapacity(Counter(WorkspaceCapacity, r.projectId), delta);
      } else if r.Environment? {
        ok := ChangeCapacity(Counter(EnvironmentCapacity, r.projectId), delta);
      }
    }

    /** Takes a row out of the indexes; no counter goes below zero. */
    method RemoveRow(k: RowKey, r: Resource, ghost rows: map<RowKey, Resource>) returns (ok: bool)
      requires Matches(rows) && k in rows && rows[k] == r && ValidRow(k, r)
      modifies this
      ensures ok && Matches(rows - {k})
    {
      hide Charges, CountsSandbox, SafeName, ValidId, Attaches;
      ProjectIsNamed(k, r);
      forall c ensures |Charged(rows, c)| == |Charged(rows - {k}, c)| + (if c in Charges(r) then 1 else 0) {
        ChargedWithout(rows, k, c);
      }
      ok := ChangeCharges(r, -1);
      MountsWithout(mounts, rows, k);
      SingleMountsSub(rows - {k}, rows);
      mounts := map m | m in mounts && mounts[m] != k :: mounts[m];
    }

    method InsertMounts(k: RowKey, r: Resource, ghost rows: map<RowKey, Resource>) returns (ok: bool)
      requires MountsMatch(mounts, rows) && SingleMounts(rows) && k !in rows && CountsSandbox(r)
      modifies this`mounts
      ensures ok <==> SingleMounts(rows[k := r])
      ensures ok ==> MountsMatch(mounts, rows[k := r])
    {
      hide Attaches, SingleMounts;
      var n := 0;
      while n < |r.mounts|
        invariant n <= |r.mounts| && PartlyMounted(mounts, rows, k, r, n)
      {
        var m := MountKey(r.projectId, r.mounts[n]);
        if m in mounts {
          CollisionIsDouble(mounts, rows, k, r, n);
          return false;
        }
        NextMount(mounts, rows, k, r, n);
        mounts := mounts[m := k];
        n := n + 1;
      }
      FullyMounted(mounts, rows, k, r);
      return true;
    }

    /** Puts a row into the indexes; it fails exactly on a workspace mounted twice. */
    method AddRow(k: RowKey, r: Resource, ghost rows: map<RowKey, Resource>) returns (ok: bool)
      requires Matches(rows) && k !in rows && ValidRow(k, r)
      modifies this
      ensures ok <==> SingleMounts(rows[k := r])
      ensures ok ==> Matches(rows[k := r])
    {
      hide Charges, CountsSandbox, SafeName, ValidId, Attaches, SingleMounts, MountsMatch;
      ProjectIsNamed(k, r);
      forall c ensures |Charged(rows[k := r], c)| == |Charged(rows, c)| + (if c in Charges(r) then 1 else 0) {
        ChargedWith(rows, k, r, c);
      }
      ok := ChangeCharges(r, 1);
      if CountsSandbox(r) {
        ok := InsertMounts(k, r, rows);
      } else {
        UnmountedRow(mounts, rows, k, r);
      }
    }

    /** Takes the changed rows out and then puts their new versions in, each pass in any order. The order
        of passes is what lets a workspace change hands inside one transaction: the only failure is a
        workspace mounted twice in the outcome. */
    method ReplaceRows(changed: set<RowKey>, before: map<RowKey, Resource>, after: map<RowKey, Resource>,
                       ghost rows: map<RowKey, Resource>)
      returns (ok: bool)
      requires Matches(rows) && ChangesOf(changed, before, after, rows) && ValidRows(before) && ValidRows(after)
      modifies this
      ensures ok <==> SingleMounts(Patched(rows, changed, after))
      ensures ok ==> Matches(Patched(rows, changed, after))
    {
      hide SingleMounts, CountsSandbox, IndexesMatch, ValidRow;
      ghost var now := rows;
      var pending := changed;
      while pending != {}
        invariant pending <= changed && Matches(now) && now == rows - (changed - pending)
        decreases pending
      {
        var k :| k in pending;
        if k in before {
          ok := RemoveRow(k, before[k], now);
        }
        assert k !in before ==> now - {k} == now;
        now := now - {k};
        pending := pending - {k};
        assert now == rows - (changed - pending);
      }
      pending := changed;
      assert now == Patched(rows, changed, after) - pending;
      while pending != {}
        invariant pending <= changed && Matches(now) && now == Patched(rows, changed, after) - pending
        decreases pending
      {
        var k :| k in pending;
        if k in after {
          ok := AddRow(k, after[k], now);
          if !ok {
            NotSingle(now[k := after[k]], Patched(rows, changed, after));
            return;
          }
          now := now[k := after[k]];
        }
        pending := pending - {k};
        assert now == Patched(rows, changed, after) - pending;
      }
      assert now == Patched(rows, changed, after);
      MatchedIsSingle(capacity, mounts, now);
      return true;
    }

    /** Follows a transaction's changes to the rows: workspaces and environments first, then sandboxes. */
    method Sync(before: map<RowKey, Resource>, after: map<RowKey, Resource>, ghost rows: map<RowKey, Resource>)
      returns (ok: bool)
      requires Matches(rows) && ValidRows(rows) && ValidRows(before) && ValidRows(after)
      requires ChangesOf(Diff(before, after), before, after, rows)
      modifies this
      ensures ok <==> SingleMounts(Overlay(rows, before, after))
      ensures ok ==> Matches(Overlay(rows, before, after))
    {
      hide SingleMounts, IndexesMatch, ValidRow, Diff, Overlay, Patched, CountersMatch, MountsMatch;
      var changed := Diff(before, after);
      var counted := set k | k in changed && (k.kind == WorkspaceKind || k.kind == EnvironmentKind);
      var mounted := set k | k in changed && k.kind == SandboxKind;
      SameChanges(changed, counted, before, after, rows);
      ghost var midway := Patched(rows, counted, after);
      MatchedIsSingle(capacity, mounts, rows);
      PatchedAgrees(rows, before, after, counted, mounted);
      SingleMountsAgree(rows, midway);
      ok := ReplaceRows(counted, before, after, rows);
      LaterChanges(changed, counted, mounted, before, after, rows);
      ok := ReplaceRows(mounted, before, after, midway);
      ghost var last := Patched(midway, mounted, after);
      SingleMountsAgree(last, Overlay(rows, before, after));
      SingleMountsAgree(Overlay(rows, before, after), last);
      if ok {
        IndexesAgree(capacity, mounts, last, Overlay(rows, before, after));
      }
    }

    /** Recomputes the indexes from the rows alone; it succeeds exactly when no workspace is mounted twice. */
    method Rebuild(rows: map<RowKey, Resource>) returns (ok: bool)
      requires ValidRows(rows)
      modifies this
      ensures ok <==> SingleMounts(rows)
      ensures ok ==> Matches(rows)
    {
      capacity, mounts := map[Counter(SandboxCapacity, TOTAL) := 0], map[];
      assert forall c :: Charged(map[], c) == {};
      ok := ReplaceRows(rows.Keys, map[], rows, map[]);
      assert Patched(map[], rows.Keys, rows) == rows;
    }
  }

  /** `before` and `after` agree with the stored rows about the changed keys. */
  ghost predicate ChangesOf(changed: set<RowKey>, before: map<RowKey, Resource>, after: map<RowKey, Resource>,
                            rows: map<RowKey, Resource>) {
    forall k | k in changed :: (k in before <==> k in rows) && (k in before ==> before[k] == rows[k])
  }

  ghost function Patched(rows: map<RowKey, Resource>, changed: set<RowKey>, after: map<RowKey, Resource>)
    : map<RowKey, Resource>
  {
    map k | k in rows.Keys + after.Keys && (if k in changed then k in after else k in rows) ::
      if k in changed then after[k] else rows[k]
  }

  lemma NotSingle(part: map<RowKey, Resource>, rows: map<RowKey, Resource>)
    requires !SingleMounts(part) && forall k | k in part :: k in rows && rows[k] == part[k]
    ensures !SingleMounts(rows)
  {
    hide SingleMounts;
    if SingleMounts(rows) {
      SingleMountsSub(part, rows);
    }
  }

  lemma MatchedIsSingle(capacity: map<Counter, int>, mounts: map<MountKey, RowKey>, rows: map<RowKey, Resource>)
    requires IndexesMatch(capacity, mounts, rows)
    ensures SingleMounts(rows)
  {
    hide SingleMounts, MountsMatch, CountersMatch;
  }

  lemma ProjectIsNamed(k: RowKey, r: Resource)
    requires ValidRow(k, r)
    ensures r.projectId != TOTAL
  {
  }

  ghost predicate AgreeOn(a: map<RowKey, Resource>, b: map<RowKey, Resource>, kinds: set<Kind>) {
    forall k: RowKey | k.kind in kinds :: (k in a <==> k in b) && (k in a ==> a[k] == b[k])
  }

  lemma SingleMountsAgree(a: map<RowKey, Resource>, b: map<RowKey, Resource>)
    requires ValidRows(a) && ValidRows(b) && AgreeOn(a, b, {SandboxKind})
    ensures SingleMounts(a) ==> SingleMounts(b)
  {
    hide SafeName, ValidId, NoRepeat;
    forall k | k in b && CountsSandbox(b[k]) ensures k in a && a[k] == b[k] {
      assert ValidRow(k, b[k]);
    }
  }

  lemma ChargesAgree(a: map<RowKey, Resource>, b: map<RowKey, Resource>, k: RowKey)
    requires ValidRows(a) && ValidRows(b) && AgreeOn(a, b, {SandboxKind, WorkspaceKind, EnvironmentKind})
    ensures (k in a && Charges(a[k]) != {} ==> k in b && b[k] == a[k])
            && (k in b && Charges(b[k]) != {} ==> k in a && a[k] == b[k])
  {
    hide SafeName, ValidId, NoControl;
    assert k in a ==> ValidRow(k, a[k]);
    assert k in b ==> ValidRow(k, b[k]);
  }

  lemma IndexesAgree(capacity: map<Counter, int>, mounts: map<MountKey, RowKey>, a: map<RowKey, Resource>,
                     b: map<RowKey, Resource>)
    requires ValidRows(a) && ValidRows(b) && AgreeOn(a, b, {SandboxKind, WorkspaceKind, EnvironmentKind})
    requires IndexesMatch(capacity, mounts, a) && SingleMounts(b)
    ensures IndexesMatch(capacity, mounts, b)
  {
    hide ValidRows, NoRepeat, SingleMounts, AgreeOn, Terminal;
    forall k ensures (k in a && Charges(a[k]) != {} ==> k in b && b[k] == a[k])
             ensures (k in b && Charges(b[k]) != {} ==> k in a && a[k] == b[k])
    {
      ChargesAgree(a, b, k);
    }
    forall c ensures Charged(a, c) == Charged(b, c) {
    }
  }

  lemma SameChanges(changed: set<RowKey>, some: set<RowKey>, before: map<RowKey, Resource>,
                    after: map<RowKey, Resource>, rows: map<RowKey, Resource>)
    requires ChangesOf(changed, before, after, rows) && some <= changed
    ensures ChangesOf(some, before, after, rows)
  {
  }

  lemma LaterChanges(changed: set<RowKey>, first: set<RowKey>, second: set<RowKey>, before: map<RowKey, Resource>,
                     after: map<RowKey, Resource>, rows: map<RowKey, Resource>)
    requires ChangesOf(changed, before, after, rows) && second <= changed && first !! second
    ensures ChangesOf(second, before, after, Patched(rows, first, after))
  {
  }

  lemma PatchedAgrees(rows: map<RowKey, Resource>, before: map<RowKey, Resource>, after: map<RowKey, Resource>,
                      counted: set<RowKey>, mounted: set<RowKey>)
    requires ValidRows(rows) && ValidRows(after)
    requires counted == set k | k in Diff(before, after) && (k.kind == WorkspaceKind || k.kind == EnvironmentKind)
    requires mounted == set k | k in Diff(before, after) && k.kind == SandboxKind
    ensures var midway := Patched(rows, counted, after);
            var last := Patched(midway, mounted, after);
            var all := Overlay(rows, before, after);
            && ValidRows(midway) && ValidRows(last) && ValidRows(all) && AgreeOn(rows, midway, {SandboxKind})
            && AgreeOn(last, all, {SandboxKind, WorkspaceKind, EnvironmentKind})
            && AgreeOn(last, all, {SandboxKind}) && AgreeOn(all, last, {SandboxKind})
  {
    hide ValidRow, Diff, Overlay, Patched, AgreeOn;
    var changed := Diff(before, after);
    var midway := Patched(rows, counted, after);
    var last := Patched(midway, mounted, after);
    var all := Overlay(rows, before, after);
    PatchedValid(rows, counted, after);
    PatchedValid(midway, mounted, after);
    OverlayIsPatched(rows, before, after);
    PatchedValid(rows, changed, after);
    AgreeElsewhere(rows, counted, after, {SandboxKind});
    PatchedTwice(rows, counted, mounted, changed, after);
  }

  lemma PatchedValid(rows: map<RowKey, Resource>, changed: set<RowKey>, after: map<RowKey, Resource>)
    requires ValidRows(rows) && ValidRows(after)
    ensures ValidRows(Patched(rows, changed, after))
  {
    hide ValidRow;
  }

  lemma OverlayIsPatched(rows: map<RowKey, Resource>, before: map<RowKey, Resource>, after: map<RowKey, Resource>)
    ensures Overlay(rows, before, after) == Patched(rows, Diff(before, after), after)
  {
    hide Diff;
  }

  lemma AgreeElsewhere(rows: map<RowKey, Resource>, changed: set<RowKey>, after: map<RowKey, Resource>,
                       kinds: set<Kind>)
    requires forall k | k in changed :: k.kind !in kinds
    ensures AgreeOn(rows, Patched(rows, changed, after), kinds)
  {
  }

  lemma PatchedTwice(rows: map<RowKey, Resource>, counted: set<RowKey>, mounted: set<RowKey>, changed: set<RowKey>,
                     after: map<RowKey, Resource>)
    requires counted == set k | k in changed && (k.kind == WorkspaceKind || k.kind == EnvironmentKind)
    requires mounted == set k | k in changed && k.kind == SandboxKind
    ensures var last, all := Patched(Patched(rows, counted, after), mounted, after), Patched(rows, changed, after);
            AgreeOn(last, all, {SandboxKind, WorkspaceKind, EnvironmentKind}) && AgreeOn(last, all, {SandboxKind})
            && AgreeOn(all, last, {SandboxKind})
  {
  }
}
