/** The node's one-time capability cache (internal/node/replay.go): a map of live identifiers kept
    beside a binary heap of their expiries. Readings are what the process clock returned to a
    caller before it took the cache's lock, so they need not be ordered like the calls. */
module ReplayCache {
  import opened Identifiers

  datatype Expiry = Expiry(jti: string, expiresAt: int)

  datatype Outcome = Admitted | Replayed | Full | AlreadyExpired | InvalidIdentifier

  datatype Call = Call(jti: string, expiresAt: int, reading: int)

  const MAX_JTI := 256

  predicate ValidJti(jti: string) {
    !Blank(jti) && |jti| <= MAX_JTI && !Contains(jti, NUL) && !Contains(jti, '\r') && !Contains(jti, '\n')
  }

  /** A call that gets past the checks made before the lock; only such calls prune. */
  predicate Reaches(call: Call) {
    ValidJti(call.jti) && call.reading < call.expiresAt
  }

  // ---------- The plain set of live identifiers ----------

  function Live(used: map<string, int>, reading: int): map<string, int> {
    map jti | jti in used && reading < used[jti] :: used[jti]
  }

  /** What one call does to the set of live identifiers. */
  function Consume(used: map<string, int>, maxLive: nat, call: Call): (map<string, int>, Outcome) {
    if !ValidJti(call.jti) then (used, InvalidIdentifier)
    else if call.reading >= call.expiresAt then (used, AlreadyExpired)
    else
      var live := Live(used, call.reading);
      if call.jti in live then (live, Replayed)
      else if |live| >= maxLive then (live, Full)
      else (live[call.jti := call.expiresAt], Admitted)
  }

  /** What an identifier must look like: not blank, at most 256 characters, no separators. */
  lemma JtiExactly(jti: string)
    ensures ValidJti(jti) <==>
              && !Blank(jti) && |jti| <= 256
              && forall i | 0 <= i < |jti| :: jti[i] != NUL && jti[i] != '\r' && jti[i] != '\n'
  {
    hide Blank;
  }

  /** What each outcome means. */
  lemma ConsumeExactly(used: map<string, int>, maxLive: nat, call: Call)
    ensures var outcome := Consume(used, maxLive, call).1;
            var unknown := call.jti !in used || used[call.jti] <= call.reading;
            var live := set j | j in used && used[j] > call.reading;
            && (outcome == InvalidIdentifier <==> !ValidJti(call.jti))
            && (outcome == AlreadyExpired <==> ValidJti(call.jti) && call.reading >= call.expiresAt)
            && (outcome == Replayed <==> Reaches(call) && !unknown)
            && (outcome == Full <==> Reaches(call) && unknown && |live| >= maxLive)
            && (outcome == Admitted <==> Reaches(call) && unknown && |live| < maxLive)
  {
    hide ValidJti;
    assert Live(used, call.reading).Keys == set j | j in used && used[j] > call.reading;
  }

  /** What is remembered afterwards: what has not expired by this reading and, if the call is admitted, its identifier
      until its expiry. A call that fails the checks before the lock changes nothing. */
  lemma ConsumeRemembers(used: map<string, int>, maxLive: nat, call: Call, j: string)
    ensures var (after, outcome) := Consume(used, maxLive, call);
            && (!Reaches(call) ==> after == used)
            && (outcome == Admitted ==> call.jti in after && after[call.jti] == call.expiresAt)
            && (Reaches(call) && !(outcome == Admitted && j == call.jti) ==>
                  && (j in after <==> j in used && used[j] > call.reading)
                  && (j in after ==> after[j] == used[j]))
  {
    hide ValidJti;
  }

  // ---------- The heap ----------

  function Parent(i: int): int {
    (i - 1) / 2
  }

  predicate InOrder(h: seq<Expiry>, i: int)
    requires 0 < i < |h|
  {
    h[Parent(i)].expiresAt <= h[i].expiresAt
  }

  predicate HeapOrdered(h: seq<Expiry>) {
    forall i | 0 < i < |h| :: InOrder(h, i)
  }

  /** Heap order everywhere except on the edge above `at`. */
  ghost predicate OrderedExceptAbove(h: seq<Expiry>, at: int) {
    && (forall i | 0 < i < |h| && i != at :: InOrder(h, i))
    && GrandchildrenInOrder(h, at)
  }

  /** Heap order everywhere except on the edges below `at`. */
  ghost predicate OrderedExceptBelow(h: seq<Expiry>, at: int) {
    && (forall i | 0 < i < |h| && Parent(i) != at :: InOrder(h, i))
    && GrandchildrenInOrder(h, at)
  }

  ghost predicate GrandchildrenInOrder(h: seq<Expiry>, at: int) {
    0 < at < |h| ==> forall i | 0 < i < |h| && Parent(i) == at :: h[Parent(at)].expiresAt <= h[i].expiresAt
  }

  lemma {:induction false} RootIsEarliest(h: seq<Expiry>, i: nat)
    requires HeapOrdered(h) && i < |h|
    ensures h[0].expiresAt <= h[i].expiresAt
  {
    if i > 0 {
      RootIsEarliest(h, Parent(i));
      assert InOrder(h, i);
    }
  }

  lemma SwapKeepsElements(h: seq<Expiry>, i: nat, j: nat)
    requires i < |h| && j < |h|
    ensures multiset(h[i := h[j]][j := h[i]]) == multiset(h)
  {
    var g := h[i := h[j]];
    assert multiset(g) == multiset(h) - multiset{h[i]} + multiset{h[j]};
    assert multiset(g[j := h[i]]) == multiset(g) - multiset{g[j]} + multiset{h[i]};
  }

  lemma UpStep(h: seq<Expiry>, j: nat)
    requires 0 < j < |h| && OrderedExceptAbove(h, j) && !InOrder(h, j)
    ensures OrderedExceptAbove(h[Parent(j) := h[j]][j := h[Parent(j)]], Parent(j))
  {
    var i := Parent(j);
    var g := h[i := h[j]][j := h[i]];
    forall c | 0 < c < |g| && c != i ensures InOrder(g, c) {
      if c != j {
        assert InOrder(h, c);
      }
    }
    forall c | 0 < i && 0 < c < |g| && Parent(c) == i ensures g[Parent(i)].expiresAt <= g[c].expiresAt {
      assert InOrder(h, i);
      if c != j {
        assert InOrder(h, c);
      }
    }
  }

  method Up(h0: seq<Expiry>) returns (h: seq<Expiry>)
    requires |h0| > 0 && OrderedExceptAbove(h0, |h0| - 1)
    ensures HeapOrdered(h) && multiset(h) == multiset(h0)
  {
    h := h0;
    var j := |h| - 1;
    while j > 0 && h[j].expiresAt < h[Parent(j)].expiresAt
      invariant 0 <= j < |h| == |h0|
      invariant multiset(h) == multiset(h0)
      invariant OrderedExceptAbove(h, j)
      decreases j
    {
      UpStep(h, j);
      SwapKeepsElements(h, Parent(j), j);
      h := h[Parent(j) := h[j]][j := h[Parent(j)]];
      j := Parent(j);
    }
  }

  lemma DownStep(h: seq<Expiry>, i: nat, j: nat)
    requires i < j < |h| && Parent(j) == i && OrderedExceptBelow(h, i)
    requires h[j].expiresAt < h[i].expiresAt
    requires forall c | 0 < c < |h| && Parent(c) == i :: h[j].expiresAt <= h[c].expiresAt
    ensures OrderedExceptBelow(h[i := h[j]][j := h[i]], j)
  {
    var g := h[i := h[j]][j := h[i]];
    forall c | 0 < c < |g| && Parent(c) != j ensures InOrder(g, c) {
      if Parent(c) != i {
        assert InOrder(h, c);
      }
    }
    forall c | 0 < c < |g| && Parent(c) == j ensures g[Parent(j)].expiresAt <= g[c].expiresAt {
      assert InOrder(h, c);
    }
  }

  lemma DownDone(h: seq<Expiry>, i: nat)
    requires OrderedExceptBelow(h, i)
    requires 2 * i + 1 < |h| ==> h[i].expiresAt <= h[2 * i + 1].expiresAt
    requires 2 * i + 2 < |h| ==> h[i].expiresAt <= h[2 * i + 2].expiresAt
    ensures HeapOrdered(h)
  {
    forall c | 0 < c < |h| ensures InOrder(h, c) {
      if Parent(c) == i {
        assert c == 2 * i + 1 || c == 2 * i + 2;
      }
    }
  }

  /** The lesser of the one or two children of `i`. */
  function LesserChild(h: seq<Expiry>, i: nat): (j: nat)
    requires 2 * i + 1 < |h|
    ensures i < j < |h| && Parent(j) == i
    ensures forall c | 0 < c < |h| && Parent(c) == i :: h[j].expiresAt <= h[c].expiresAt
  {
    var j := 2 * i + 1;
    assert forall c | 0 < c < |h| && Parent(c) == i :: c == j || c == j + 1;
    if j + 1 < |h| && h[j + 1].expiresAt < h[j].expiresAt then j + 1 else j
  }

  method Down(h0: seq<Expiry>) returns (h: seq<Expiry>)
    requires OrderedExceptBelow(h0, 0)
    ensures HeapOrdered(h) && multiset(h) == multiset(h0)
  {
    h := h0;
    var i := 0;
    while 2 * i + 1 < |h|
      invariant 0 <= i && |h| == |h0|
      invariant multiset(h) == multiset(h0)
      invariant OrderedExceptBelow(h, i)
      decreases |h| - i
    {
      var j := LesserChild(h, i);
      if h[j].expiresAt >= h[i].expiresAt {
        break;
      }
      DownStep(h, i, j);
      SwapKeepsElements(h, i, j);
      h := h[i := h[j]][j := h[i]];
      i := j;
    }
    DownDone(h, i);
  }

  method Push(h0: seq<Expiry>, entry: Expiry) returns (h: seq<Expiry>)
    requires HeapOrdered(h0)
    ensures HeapOrdered(h) && multiset(h) == multiset(h0) + multiset{entry}
  {
    var grown := h0 + [entry];
    assert forall i | 0 < i < |h0| :: InOrder(h0, i) ==> InOrder(grown, i);
    h := Up(grown);
  }

  method Pop(h0: seq<Expiry>) returns (h: seq<Expiry>, root: Expiry)
    requires HeapOrdered(h0) && |h0| > 0
    ensures root == h0[0]
    ensures HeapOrdered(h) && multiset(h) == multiset(h0) - multiset{root}
  {
    var last := |h0| - 1;
    root := h0[0];
    var swapped := h0[0 := h0[last]][last := h0[0]];
    SwapKeepsElements(h0, 0, last);
    assert swapped == swapped[..last] + [root];
    assert forall i | 0 < i < last && Parent(i) != 0 :: InOrder(h0, i) ==> InOrder(swapped[..last], i);
    h := Down(swapped[..last]);
  }

  // ---------- The cache ----------

  ghost function Entries(used: map<string, int>): set<Expiry> {
    set jti | jti in used :: Expiry(jti, used[jti])
  }

  lemma InEntries(used: map<string, int>, e: Expiry)
    ensures e in Entries(used) <==> e.jti in used && used[e.jti] == e.expiresAt
  {
    if e.jti in used && used[e.jti] == e.expiresAt {
      assert Expiry(e.jti, used[e.jti]) in Entries(used);
    }
  }

  /** The heap holds every live identifier exactly once, with its recorded expiry. */
  ghost predicate Tracks(h: seq<Expiry>, used: map<string, int>) {
    multiset(h) == multiset(Entries(used))
  }

  lemma TracksMember(h: seq<Expiry>, used: map<string, int>, i: nat)
    requires Tracks(h, used) && i < |h|
    ensures h[i].jti in used && used[h[i].jti] == h[i].expiresAt
  {
    assert h[i] in multiset(h);
  }

  lemma TracksAfterPop(h0: seq<Expiry>, h: seq<Expiry>, used: map<string, int>, root: Expiry)
    requires Tracks(h0, used) && root in multiset(h0) && multiset(h) == multiset(h0) - multiset{root}
    ensures root.jti in used && used[root.jti] == root.expiresAt
    ensures Tracks(h, used - {root.jti})
  {
    assert root in Entries(used);
    var rest := Entries(used - {root.jti});
    forall e ensures multiset(h)[e] == multiset(rest)[e] {
      InEntries(used, e);
      InEntries(used - {root.jti}, e);
    }
  }

  lemma TracksAfterPush(h0: seq<Expiry>, h: seq<Expiry>, used: map<string, int>, entry: Expiry)
    requires Tracks(h0, used) && entry.jti !in used && multiset(h) == multiset(h0) + multiset{entry}
    ensures Tracks(h, used[entry.jti := entry.expiresAt])
  {
    var used' := used[entry.jti := entry.expiresAt];
    assert Entries(used') == Entries(used) + {entry} by {
      forall e ensures e in Entries(used') <==> e in Entries(used) + {entry} {
        InEntries(used', e);
        InEntries(used, e);
      }
    }
    assert entry !in Entries(used);
  }

  /** Once the root is live, everything is: the pruning loop drops the expired entries and only those. */
  lemma AllLive(h: seq<Expiry>, used: map<string, int>, reading: int)
    requires HeapOrdered(h) && Tracks(h, used)
    requires |h| > 0 ==> reading < h[0].expiresAt
    ensures Live(used, reading) == used
  {
    forall jti | jti in used ensures reading < used[jti] {
      assert Expiry(jti, used[jti]) in Entries(used);
      assert Expiry(jti, used[jti]) in multiset(h);
      var i :| 0 <= i < |h| && h[i] == Expiry(jti, used[jti]);
      RootIsEarliest(h, i);
    }
  }

  class Cache {
    var used: map<string, int>
    var expires: seq<Expiry>
    const maxLive: nat

    ghost predicate Valid()
      reads this
    {
      maxLive >= 1 && |used| <= maxLive && HeapOrdered(expires) && Tracks(expires, used)
    }

    constructor (capacity: nat)
      requires capacity >= 1
      ensures Valid() && maxLive == capacity && used == map[]
    {
      used, expires, maxLive := map[], [], capacity;
    }

    /** Consumes `jti` once. Heap and map together behave as the plain set of live identifiers. */
    method Use(jti: string, expiresAt: int, reading: int) returns (outcome: Outcome)
      requires Valid()
      modifies this
      ensures Valid()
      ensures (used, outcome) == Consume(old(used), maxLive, Call(jti, expiresAt, reading))
    {
      if !ValidJti(jti) {
        return InvalidIdentifier;
      }
      if reading >= expiresAt {
        return AlreadyExpired;
      }
      while |expires| > 0 && expires[0].expiresAt <= reading
        invariant Valid() && used.Keys <= old(used).Keys
        invariant Live(used, reading) == Live(old(used), reading)
        decreases |expires|
      {
        ghost var before := expires;
        var rest, expired := Pop(expires);
        TracksMember(before, used, 0);
        TracksAfterPop(before, rest, used, expired);
        assert |multiset(rest)| == |multiset(before)| - 1;
        expires := rest;
        if expired.jti in used && used[expired.jti] == expired.expiresAt {
          assert Live(used - {expired.jti}, reading) == Live(used, reading);
          assert (used - {expired.jti}).Keys <= used.Keys;
          used := used - {expired.jti};
        }
      }
      AllLive(expires, used, reading);
      if jti in used {
        return Replayed;
      }
      if |used| >= maxLive {
        return Full;
      }
      var heap := Push(expires, Expiry(jti, expiresAt));
      TracksAfterPush(expires, heap, used, Expiry(jti, expiresAt));
      used := used[jti := expiresAt];
      expires := heap;
      return Admitted;
    }
  }

  // ---------- Every run of calls ----------

  /** The live identifiers after a run of calls on an empty cache. */
  function After(maxLive: nat, calls: seq<Call>): map<string, int> {
    if calls == [] then map[]
    else Consume(After(maxLive, calls[..|calls| - 1]), maxLive, calls[|calls| - 1]).0
  }

  function OutcomeAt(maxLive: nat, calls: seq<Call>, k: nat): Outcome
    requires k < |calls|
  {
    Consume(After(maxLive, calls[..k]), maxLive, calls[k]).1
  }

  predicate AdmittedAt(maxLive: nat, calls: seq<Call>, k: nat) {
    k < |calls| && OutcomeAt(maxLive, calls, k) == Admitted
  }

  /** Some call after `i` and before `k` pruned with a reading at or past the expiry of call `i`. */
  ghost predicate PrunedBetween(calls: seq<Call>, i: nat, k: nat)
    requires i < |calls| && k <= |calls|
  {
    exists m | i < m < k :: Reaches(calls[m]) && calls[m].reading >= calls[i].expiresAt
  }

  ghost predicate RememberedFrom(maxLive: nat, calls: seq<Call>, jti: string, i: nat) {
    AdmittedAt(maxLive, calls, i) && calls[i].jti == jti && !PrunedBetween(calls, i, |calls|)
  }

  lemma AdmittedReaches(maxLive: nat, calls: seq<Call>, k: nat)
    requires k < |calls| && AdmittedAt(maxLive, calls, k)
    ensures Reaches(calls[k]) && calls[k].jti !in Live(After(maxLive, calls[..k]), calls[k].reading)
  {
  }

  /** A cached identifier is exactly one admitted earlier and not since pruned. */
  lemma {:induction false} Remembered(maxLive: nat, calls: seq<Call>, jti: string)
    ensures jti in After(maxLive, calls) <==> exists i: nat :: RememberedFrom(maxLive, calls, jti, i)
    ensures forall i: nat :: RememberedFrom(maxLive, calls, jti, i) ==> After(maxLive, calls)[jti] == calls[i].expiresAt
  {
    if calls != [] {
      Remembered(maxLive, calls[..|calls| - 1], jti);
      forall i: nat
        ensures RememberedFrom(maxLive, calls, jti, i) <==> SurvivesLast(maxLive, calls, jti, i)
      {
        RememberedIffSurvives(maxLive, calls, jti, i);
      }
      RememberedStep(maxLive, calls, jti);
    }
  }

  /** How the last call of a run changes what is remembered of `jti`. */
  lemma RememberedStep(maxLive: nat, calls: seq<Call>, jti: string)
    requires calls != []
    requires var prior := calls[..|calls| - 1];
             && (jti in After(maxLive, prior) <==> exists i: nat :: RememberedFrom(maxLive, prior, jti, i))
             && (forall i: nat :: RememberedFrom(maxLive, prior, jti, i) ==>
                 After(maxLive, prior)[jti] == prior[i].expiresAt)
    requires forall i: nat :: RememberedFrom(maxLive, calls, jti, i) <==> SurvivesLast(maxLive, calls, jti, i)
    ensures jti in After(maxLive, calls) <==> exists i: nat :: RememberedFrom(maxLive, calls, jti, i)
    ensures forall i: nat :: RememberedFrom(maxLive, calls, jti, i) ==> After(maxLive, calls)[jti] == calls[i].expiresAt
  {
    var n := |calls| - 1;
    var prior := calls[..n];
    var last := calls[n];
    var before := After(maxLive, prior);
    var after := After(maxLive, calls);
    assert (after, OutcomeAt(maxLive, calls, n)) == Consume(before, maxLive, last);
    if jti in after {
      if AdmittedAt(maxLive, calls, n) && last.jti == jti {
        assert SurvivesLast(maxLive, calls, jti, n);
      } else {
        var i: nat :| RememberedFrom(maxLive, prior, jti, i);
        assert SurvivesLast(maxLive, calls, jti, i);
      }
    }
    forall i: nat | SurvivesLast(maxLive, calls, jti, i)
      ensures jti in after && after[jti] == calls[i].expiresAt
    {
    }
  }

  /** `jti` is remembered from call `i`: either that is the last call, or it was remembered before
      the last call and the last call does not prune it. */
  ghost predicate SurvivesLast(maxLive: nat, calls: seq<Call>, jti: string, i: nat)
    requires calls != []
  {
    var n := |calls| - 1;
    if i == n then AdmittedAt(maxLive, calls, n) && calls[n].jti == jti
    else
      && RememberedFrom(maxLive, calls[..n], jti, i)
      && !(Reaches(calls[n]) && calls[n].reading >= calls[i].expiresAt)
  }

  lemma RememberedIffSurvives(maxLive: nat, calls: seq<Call>, jti: string, i: nat)
    requires calls != []
    ensures RememberedFrom(maxLive, calls, jti, i) <==> SurvivesLast(maxLive, calls, jti, i)
  {
    var n := |calls| - 1;
    if i < n {
      assert calls[..n][..i] == calls[..i];
      PrunedBetweenPrefix(calls, i, n);
      if PrunedBetween(calls, i, n) {
        var m :| i < m < n && Reaches(calls[m]) && calls[m].reading >= calls[i].expiresAt;
        assert PrunedBetween(calls, i, n + 1);
      }
      if Reaches(calls[n]) && calls[n].reading >= calls[i].expiresAt {
        assert PrunedBetween(calls, i, n + 1);
      }
    }
  }

  /** A valid, unexpired call is refused as a replay exactly when an earlier call admitted the same
      identifier and no reading since, this call's included, has reached that call's expiry. */
  lemma ReplayedIff(maxLive: nat, calls: seq<Call>, k: nat)
    requires k < |calls| && Reaches(calls[k])
    ensures OutcomeAt(maxLive, calls, k) == Replayed <==>
            exists i: nat :: i < k && AdmittedAt(maxLive, calls, i) && calls[i].jti == calls[k].jti
                             && calls[k].reading < calls[i].expiresAt && !PrunedBetween(calls, i, k)
  {
    var prior := calls[..k];
    Remembered(maxLive, prior, calls[k].jti);
    forall i: nat | i < k
      ensures RememberedFrom(maxLive, prior, calls[k].jti, i) <==>
              AdmittedAt(maxLive, calls, i) && calls[i].jti == calls[k].jti && !PrunedBetween(calls, i, k)
    {
      assert prior[..i] == calls[..i];
      PrunedBetweenPrefix(calls, i, k);
    }
  }

  lemma PrunedBetweenPrefix(calls: seq<Call>, i: nat, k: nat)
    requires i < k <= |calls|
    ensures PrunedBetween(calls, i, k) == PrunedBetween(calls[..k], i, k)
  {
    if PrunedBetween(calls, i, k) {
      var m :| i < m < k && Reaches(calls[m]) && calls[m].reading >= calls[i].expiresAt;
      assert Reaches(calls[..k][m]) && calls[..k][m].reading >= calls[..k][i].expiresAt;
    }
    if PrunedBetween(calls[..k], i, k) {
      var m :| i < m < k && Reaches(calls[..k][m]) && calls[..k][m].reading >= calls[..k][i].expiresAt;
      assert Reaches(calls[m]) && calls[m].reading >= calls[i].expiresAt;
    }
  }

  /** An identifier belongs to one capability, so every call presenting it carries one expiry. */
  ghost predicate OneExpiry(calls: seq<Call>, jti: string, expiresAt: int) {
    forall k | 0 <= k < |calls| && calls[k].jti == jti :: calls[k].expiresAt == expiresAt
  }

  ghost predicate AdmittedTwice(maxLive: nat, calls: seq<Call>, jti: string, i: nat, k: nat) {
    i < k && AdmittedAt(maxLive, calls, i) && AdmittedAt(maxLive, calls, k) && calls[i].jti == calls[k].jti == jti
  }

  /** The identifiers that call `k` finds live leave room for another. */
  predicate HasRoom(maxLive: nat, calls: seq<Call>, k: nat)
    requires k < |calls|
  {
    |Live(After(maxLive, calls[..k]), calls[k].reading)| < maxLive
  }

  /** Call `k` presents the capability admitted at `i` with a reading short of its expiry and finds room, although
      call `m`, which took the lock in between, had already read a time at or past that expiry. */
  ghost predicate Overtaken(maxLive: nat, calls: seq<Call>, jti: string, i: nat, m: nat, k: nat) {
    && i < m < k < |calls|
    && AdmittedAt(maxLive, calls, i) && calls[i].jti == calls[k].jti == jti
    && Reaches(calls[m]) && calls[k].reading < calls[i].expiresAt <= calls[m].reading
    && HasRoom(maxLive, calls, k)
  }

  lemma SecondAdmissionIsOvertaken(maxLive: nat, calls: seq<Call>, jti: string, expiresAt: int, i: nat, k: nat)
    requires OneExpiry(calls, jti, expiresAt) && AdmittedTwice(maxLive, calls, jti, i, k)
    ensures exists m :: Overtaken(maxLive, calls, jti, i, m, k)
  {
    AdmittedReaches(maxLive, calls, k);
    ReplayedIff(maxLive, calls, k);
    assert PrunedBetween(calls, i, k);
    var m :| i < m < k && Reaches(calls[m]) && calls[m].reading >= calls[i].expiresAt;
    assert Overtaken(maxLive, calls, jti, i, m, k);
  }

  lemma OvertakenAdmitsTwice(maxLive: nat, calls: seq<Call>, jti: string, expiresAt: int, i: nat, m: nat, k: nat)
    requires OneExpiry(calls, jti, expiresAt) && Overtaken(maxLive, calls, jti, i, m, k)
    ensures exists i', k' :: AdmittedTwice(maxLive, calls, jti, i', k')
  {
    AdmittedReaches(maxLive, calls, i);
    if OutcomeAt(maxLive, calls, k) == Admitted {
      assert AdmittedTwice(maxLive, calls, jti, i, k);
    } else {
      ReplayedIff(maxLive, calls, k);
      var j: nat :| j < k && AdmittedAt(maxLive, calls, j) && calls[j].jti == jti && !PrunedBetween(calls, j, k);
      AdmittedReaches(maxLive, calls, j);
      assert j < m ==> PrunedBetween(calls, j, k);
      assert AdmittedTwice(maxLive, calls, jti, i, j);
    }
  }

  /** Exactly when one process admits a capability more than once: when a call is overtaken. */
  lemma AdmittedTwiceIffOvertaken(maxLive: nat, calls: seq<Call>, jti: string, expiresAt: int)
    requires OneExpiry(calls, jti, expiresAt)
    ensures (exists i, k :: AdmittedTwice(maxLive, calls, jti, i, k))
            <==> (exists i, m, k :: Overtaken(maxLive, calls, jti, i, m, k))
  {
    if i, k :| AdmittedTwice(maxLive, calls, jti, i, k) {
      SecondAdmissionIsOvertaken(maxLive, calls, jti, expiresAt, i, k);
    }
    if i, m, k :| Overtaken(maxLive, calls, jti, i, m, k) {
      OvertakenAdmitsTwice(maxLive, calls, jti, expiresAt, i, m, k);
    }
  }

  /** No call takes the lock with a reading behind that of a call that took it earlier. */
  ghost predicate ReadingsFollowLock(calls: seq<Call>) {
    forall i, k | 0 <= i < k < |calls| :: calls[i].reading <= calls[k].reading
  }

  lemma AdmittedOnceInOrder(maxLive: nat, calls: seq<Call>, jti: string, expiresAt: int, i: nat, k: nat)
    requires OneExpiry(calls, jti, expiresAt) && ReadingsFollowLock(calls)
    ensures !AdmittedTwice(maxLive, calls, jti, i, k)
  {
    if AdmittedTwice(maxLive, calls, jti, i, k) {
      SecondAdmissionIsOvertaken(maxLive, calls, jti, expiresAt, i, k);
    }
  }

  /** Readings taken before the lock can admit one capability twice: it expires at 15 and is used at
      9; another call, having read 16, prunes it; a third call, which read 14 and then waited, admits
      it again. */
  lemma OvertakenReadingReadmits()
    ensures var calls := [Call("a", 15, 9), Call("b", 40, 16), Call("a", 15, 14)];
            AdmittedTwice(8, calls, "a", 0, 2)
  {
    var a, b, c := Call("a", 15, 9), Call("b", 40, 16), Call("a", 15, 14);
    assert "a"[0] == 'a' && "b"[0] == 'b';
    assert ValidJti("a") && ValidJti("b");
    var calls := [a, b, c];
    assert calls[..0] == [] && calls[..1] == [a] && calls[..2] == [a, b];
    assert [a][..0] == [] && [a, b][..1] == [a];
    assert After(8, []) == map[];
    assert Live(map[], 9) == map[];
    assert After(8, [a]) == map["a" := 15];
    assert Live(map["a" := 15], 16) == map[];
    assert After(8, [a, b]) == map["b" := 40];
    assert Live(map["b" := 40], 14) == map["b" := 40];
  }
}
