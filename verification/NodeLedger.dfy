/** The node-local route generation ledger (internal/nodeledger/ledger.go): routes move through a
    five-state lifecycle by compare-and-swap, generations come from one increasing clock, and
    process-local operation leases hold a draining route back. */
module NodeLedger {
  import opened Identifiers

  const MAX_UINT64: nat := 0xFFFF_FFFF_FFFF_FFFF
  const MAX_ROUTES: nat := 65_536
  const MAX_ENGINE_ID: nat := 1_024

  datatype RouteState = Attaching | Ready | Draining | Standby | Released

  /** `lastActivity` is a time; 0 stands for the zero time. */
  datatype Entry = Entry(routeId: string, projectId: string, sandboxId: string, engineId: string,
                         generation: nat, state: RouteState, lastActivity: int)

  datatype DiskState = DiskState(lastGeneration: nat, routes: map<string, Entry>)

  datatype OperationKey = OperationKey(routeId: string, projectId: string, sandboxId: string, generation: nat)

  datatype Error =
    | NotFound | Conflict | StaleGeneration | StateConflict | IllegalTransition | ActiveOperations
    | Closed | Invalid | Exhausted | Corrupt | PersistFailed

  datatype Result<+T> = Ok(value: T) | Err(error: Error)

  datatype Option<+T> = None | Some(value: T)

  /** Where a durable write ends: synced, failed before the file was replaced, or failed after. */
  datatype Persist = Synced | LostBeforeRename | LostAfterRename

  /** A ledger process: what it serves, what the file holds, its live leases. */
  datatype View = View(mem: DiskState, disk: DiskState, active: map<OperationKey, nat>, closed: bool)

  // ---------- Rules on one state ----------

  predicate AllowedTransition(from: RouteState, to: RouteState) {
    match from
    case Attaching => to == Ready || to == Released
    case Ready => to == Draining
    case Draining => to == Ready || to == Standby || to == Released
    case Standby => to == Released
    case Released => false
  }

  predicate ValidEngineId(id: string) {
    1 <= |id| <= MAX_ENGINE_ID && forall i | 0 <= i < |id| :: !IsSpace(id[i]) && !IsControl(id[i])
  }

  predicate ValidIdentity(routeId: string, projectId: string, sandboxId: string) {
    SafeName(routeId) && SafeName(projectId) && SafeName(sandboxId)
  }

  predicate ValidEntry(key: string, e: Entry, lastGeneration: nat) {
    && key == e.routeId
    && ValidIdentity(e.routeId, e.projectId, e.sandboxId)
    && 1 <= e.generation <= lastGeneration
    && e.lastActivity != 0
    && (if e.state == Released then e.engineId == "" else ValidEngineId(e.engineId))
  }

  /** Two routes never share a generation and, while neither is released, never an engine or a sandbox. */
  predicate Compatible(e: Entry, f: Entry) {
    && e.generation != f.generation
    && (e.state != Released && f.state != Released ==>
          e.engineId != f.engineId && (e.projectId, e.sandboxId) != (f.projectId, f.sandboxId))
  }

  ghost predicate WellFormed(d: DiskState) {
    && (forall r | r in d.routes :: ValidEntry(r, d.routes[r], d.lastGeneration))
    && (forall r, q | r in d.routes && q in d.routes && r != q :: Compatible(d.routes[r], d.routes[q]))
  }

  ghost predicate ValidDisk(d: DiskState) {
    |d.routes| <= MAX_ROUTES && WellFormed(d)
  }

  predicate Assigned(e: Entry, projectId: string, sandboxId: string, engineId: string) {
    e.state != Released && (e.engineId == engineId || (e.projectId == projectId && e.sandboxId == sandboxId))
  }

  ghost predicate Conflicts(routes: map<string, Entry>, except: string, projectId: string, sandboxId: string,
                            engineId: string) {
    exists r | r in routes :: r != except && Assigned(routes[r], projectId, sandboxId, engineId)
  }

  datatype Seen = Seen(generations: set<nat>, engines: set<string>, sandboxes: set<string>)

  /** The seen-sets record exactly the routes already visited. */
  ghost predicate Records(seen: Seen, d: DiskState, done: set<string>)
    requires done <= d.routes.Keys
  {
    && seen.generations == (set r | r in done :: d.routes[r].generation)
    && seen.engines == (set r | r in done && d.routes[r].state != Released :: d.routes[r].engineId)
    && seen.sandboxes == (set r | r in done && d.routes[r].state != Released
                          :: ScopedKey(d.routes[r].projectId, d.routes[r].sandboxId))
  }

  ghost predicate CleanOn(d: DiskState, done: set<string>)
    requires done <= d.routes.Keys
  {
    && (forall r | r in done :: ValidEntry(r, d.routes[r], d.lastGeneration))
    && (forall r, q | r in done && q in done && r != q :: Compatible(d.routes[r], d.routes[q]))
  }

  lemma SandboxKeysInjective(e: Entry, f: Entry)
    requires SafeName(e.projectId) && SafeName(f.projectId)
    ensures ScopedKey(e.projectId, e.sandboxId) == ScopedKey(f.projectId, f.sandboxId)
            <==> (e.projectId, e.sandboxId) == (f.projectId, f.sandboxId)
  {
    SafeNameHasNoNul(e.projectId);
    SafeNameHasNoNul(f.projectId);
    ScopedKeyInjective(e.projectId, e.sandboxId, f.projectId, f.sandboxId);
  }

  function Clash(seen: Seen, e: Entry): bool {
    || e.generation in seen.generations
    || (e.state != Released && (e.engineId in seen.engines || ScopedKey(e.projectId, e.sandboxId) in seen.sandboxes))
  }

  lemma ClashIsIncompatible(seen: Seen, d: DiskState, done: set<string>, r: string)
    requires done <= d.routes.Keys && Records(seen, d, done) && CleanOn(d, done)
    requires r in d.routes && ValidEntry(r, d.routes[r], d.lastGeneration)
    ensures Clash(seen, d.routes[r]) <==> exists q | q in done :: !Compatible(d.routes[r], d.routes[q])
  {
    hide SafeName, ValidEngineId, ScopedKey;
    var e := d.routes[r];
    forall q | q in done
      ensures ScopedKey(d.routes[q].projectId, d.routes[q].sandboxId) == ScopedKey(e.projectId, e.sandboxId)
              <==> (d.routes[q].projectId, d.routes[q].sandboxId) == (e.projectId, e.sandboxId)
    {
      SandboxKeysInjective(d.routes[q], e);
    }
    if Clash(seen, e) {
      var q :| q in done && !Compatible(e, d.routes[q]);
    }
  }

  function Record(seen: Seen, e: Entry): Seen {
    if e.state == Released then seen.(generations := seen.generations + {e.generation})
    else Seen(seen.generations + {e.generation}, seen.engines + {e.engineId},
              seen.sandboxes + {ScopedKey(e.projectId, e.sandboxId)})
  }

  lemma RecordNext(seen: Seen, d: DiskState, done: set<string>, r: string)
    requires done <= d.routes.Keys && Records(seen, d, done) && r in d.routes
    ensures Records(Record(seen, d.routes[r]), d, done + {r})
  {
    hide ScopedKey;
  }

  /** The loop over routes decides `ValidDisk`: its three seen-sets catch every clash. */
  method ValidateDiskState(d: DiskState) returns (ok: bool)
    ensures ok <==> ValidDisk(d)
  {
    hide SafeName, ValidEngineId, ScopedKey;
    if |d.routes| > MAX_ROUTES {
      return false;
    }
    var seen := Seen({}, {}, {});
    var pending := d.routes.Keys;
    while pending != {}
      invariant pending <= d.routes.Keys
      invariant Records(seen, d, d.routes.Keys - pending) && CleanOn(d, d.routes.Keys - pending)
      decreases pending
    {
      var r :| r in pending;
      var e := d.routes[r];
      if !ValidEntry(r, e, d.lastGeneration) {
        return false;
      }
      ClashIsIncompatible(seen, d, d.routes.Keys - pending, r);
      if Clash(seen, e) {
        return false;
      }
      RecordNext(seen, d, d.routes.Keys - pending, r);
      assert d.routes.Keys - (pending - {r}) == d.routes.Keys - pending + {r};
      seen := Record(seen, e);
      pending := pending - {r};
    }
    assert d.routes.Keys - pending == d.routes.Keys;
    return true;
  }

  method AssignmentConflicts(routes: map<string, Entry>, except: string, projectId: string, sandboxId: string,
                             engineId: string)
    returns (found: bool)
    ensures found <==> Conflicts(routes, except, projectId, sandboxId, engineId)
  {
    var pending := routes.Keys;
    while pending != {}
      invariant pending <= routes.Keys
      invariant forall r | r in routes && r !in pending ::
                r == except
                || !Assigned(routes[r], projectId, sandboxId, engineId)
      decreases pending
    {
      var r :| r in pending;
      if r != except && Assigned(routes[r], projectId, sandboxId, engineId) {
        return true;
      }
      pending := pending - {r};
    }
    return false;
  }

  // ---------- Durable mutations ----------

  datatype Mutation =
    | Bind(routeId: string, projectId: string, sandboxId: string, engineId: string, at: int)
    | Rebind(routeId: string, generation: nat, expected: RouteState, engineId: string, at: int)
    | Transition(routeId: string, generation: nat, expected: RouteState, next: RouteState)
    | Touch(routeId: string, generation: nat, expected: RouteState, at: int)
    | Remove(routeId: string, generation: nat, expected: RouteState)

  /** Checks made on the request alone, before the ledger is locked. */
  function Precheck(m: Mutation): Option<Error> {
    match m
    case Bind(r, p, s, engine, at) =>
      if !ValidIdentity(r, p, s) || !ValidEngineId(engine) || at == 0 then Some(Invalid) else None
    case Rebind(r, _, expected, engine, at) =>
      if !SafeName(r) || !ValidEngineId(engine) then Some(Invalid)
      else if expected != Standby then Some(IllegalTransition)
      else if at == 0 then Some(Invalid) else None
    case Transition(r, _, _, _) => if SafeName(r) then None else Some(Invalid)
    case Touch(r, _, expected, at) =>
      if !SafeName(r) || (expected != Ready && expected != Draining) || at == 0 then Some(Invalid) else None
    case Remove(r, _, expected) => if SafeName(r) && expected == Released then None else Some(Invalid)
  }

  function KeyOf(e: Entry): OperationKey {
    OperationKey(e.routeId, e.projectId, e.sandboxId, e.generation)
  }

  predicate HasActive(active: map<OperationKey, nat>, e: Entry) {
    KeyOf(e) in active && active[KeyOf(e)] != 0
  }

  function Lookup(d: DiskState, routeId: string, generation: nat, expected: RouteState): Result<Entry> {
    if routeId !in d.routes then Err(NotFound)
    else if d.routes[routeId].generation != generation then Err(StaleGeneration)
    else if d.routes[routeId].state != expected then Err(StateConflict)
    else Ok(d.routes[routeId])
  }

  /** The state a mutation proposes and the entry it reports. */
  ghost function Mutate(d: DiskState, active: map<OperationKey, nat>, m: Mutation): Result<(DiskState, Entry)> {
    match m
    case Bind(r, p, s, engine, at) =>
      if r in d.routes || Conflicts(d.routes, "", p, s, engine) then Err(Conflict)
      else if d.lastGeneration >= MAX_UINT64 then Err(Exhausted)
      else
        var e := Entry(r, p, s, engine, d.lastGeneration + 1, Attaching, at);
        Ok((DiskState(e.generation, d.routes[r := e]), e))
    case Rebind(r, generation, expected, engine, at) =>
      (match Lookup(d, r, generation, expected)
       case Err(error) => Err(error)
       case Ok(current) =>
         if at < current.lastActivity then Err(Invalid)
         else if Conflicts(d.routes, r, current.projectId, current.sandboxId, engine) then Err(Conflict)
         else if d.lastGeneration >= MAX_UINT64 then Err(Exhausted)
         else
           var e := current.(engineId := engine, generation := d.lastGeneration + 1, state := Attaching,
                             lastActivity := at);
           Ok((DiskState(e.generation, d.routes[r := e]), e)))
    case Transition(r, generation, expected, next) =>
      (match Lookup(d, r, generation, expected)
       case Err(error) => Err(error)
       case Ok(current) =>
         if !AllowedTransition(expected, next) then Err(IllegalTransition)
         else if expected == Draining && (next == Standby || next == Released)
         && HasActive(active, current) then Err(ActiveOperations)
         else
           var e := current.(state := next, engineId := if next == Released then "" else current.engineId);
           Ok((d.(routes := d.routes[r := e]), e)))
    case Touch(r, generation, expected, at) =>
      (match Lookup(d, r, generation, expected)
       case Err(error) => Err(error)
       case Ok(current) =>
         if at < current.lastActivity then Err(Invalid)
         else
           var e := current.(lastActivity := at);
           Ok((d.(routes := d.routes[r := e]), e)))
    case Remove(r, generation, expected) =>
      (match Lookup(d, r, generation, expected)
       case Err(error) => Err(error)
       case Ok(current) => Ok((d.(routes := d.routes - {r}), current)))
  }

  /** One mutation end to end: checks, proposal, validation, durable write, and only then memory. */
  ghost function Update(v: View, m: Mutation, p: Persist): (View, Result<Entry>) {
    match Precheck(m)
    case Some(error) => (v, Err(error))
    case None =>
      if v.closed then (v, Err(Closed))
      else
        match Mutate(v.mem, v.active, m)
        case Err(error) => (v, Err(error))
        case Ok((next, e)) =>
          var (v', failure) := Commit(v, next, p);
          (v', if failure.Some? then Err(failure.value) else Ok(e))
  }

  ghost function Commit(v: View, next: DiskState, p: Persist): (View, Option<Error>) {
    if !ValidDisk(next) then (v, Some(Corrupt))
    else match p
      case Synced => (v.(mem := next, disk := next), None)
      case LostBeforeRename => (v, Some(PersistFailed))
      case LostAfterRename => (v.(disk := next), Some(PersistFailed))
  }

  // ---------- Leases, close and reopen ----------

  function Acquire(v: View, routeId: string, projectId: string, sandboxId: string, generation: nat)
    : (View, Result<Entry>)
  {
    if !ValidIdentity(routeId, projectId, sandboxId) || generation == 0 then (v, Err(Invalid))
    else if v.closed then (v, Err(Closed))
    else if routeId !in v.mem.routes then (v, Err(NotFound))
    else
      var e := v.mem.routes[routeId];
      if e.projectId != projectId || e.sandboxId != sandboxId then (v, Err(NotFound))
      else if e.generation != generation then (v, Err(StaleGeneration))
      else if e.state != Ready then (v, Err(StateConflict))
      else
        var key := OperationKey(routeId, projectId, sandboxId, generation);
        var count := if key in v.active then v.active[key] else 0;
        if count == MAX_UINT64 then (v, Err(ActiveOperations))
        else (v.(active := v.active[key := count + 1]), Ok(e))
  }

  predicate Holds(d: DiskState, key: OperationKey) {
    && key.routeId in d.routes
    && d.routes[key.routeId].projectId == key.projectId
    && d.routes[key.routeId].sandboxId == key.sandboxId
    && d.routes[key.routeId].generation == key.generation
  }

  predicate HoldsLive(d: DiskState, key: OperationKey) {
    Holds(d, key) && (d.routes[key.routeId].state == Ready || d.routes[key.routeId].state == Draining)
  }

  function Release(v: View, key: OperationKey): (View, Option<Error>) {
    if v.closed then (v, Some(Closed))
    else if key !in v.active || v.active[key] == 0 then (v, Some(Invalid))
    else if !HoldsLive(v.mem, key) then (v, Some(StateConflict))
    else if v.active[key] == 1 then (v.(active := v.active - {key}), None)
    else (v.(active := v.active[key := v.active[key] - 1]), None)
  }

  function Close(v: View): (View, Option<Error>) {
    if v.closed then (v, None)
    else if v.active != map[] then (v, Some(ActiveOperations))
    else (v.(closed := true), None)
  }

  /** A process that opens the file after its predecessor is gone: leases do not survive. */
  function Reopen(disk: DiskState): View {
    View(disk, disk, map[], false)
  }

  // ---------- What every step keeps ----------

  /** `b` comes after `a`: the clock has not gone back, and every generation at or below `a`'s clock
      that `b` still serves belongs in `b` to the assignment it had in `a`. */
  ghost predicate Extends(a: DiskState, b: DiskState) {
    && a.lastGeneration <= b.lastGeneration
    && (forall r | r in b.routes && b.routes[r].generation <= a.lastGeneration ::
          r in a.routes && SameAssignment(a.routes[r], b.routes[r]))
  }

  /** The same assignment later on: only release forgets the engine, release is final, standby ends only in
      release, attaching is left for good, and activity does not go back. */
  predicate SameAssignment(e: Entry, f: Entry) {
    && e.routeId == f.routeId && e.projectId == f.projectId && e.sandboxId == f.sandboxId
    && e.generation == f.generation && e.lastActivity <= f.lastActivity
    && (e.state == Released ==> f.state == Released)
    && (e.state == Standby ==> f.state == Standby || f.state == Released)
    && (f.state == Attaching ==> e.state == Attaching)
    && (f.state != Released ==> f.engineId == e.engineId)
  }

  /** Every lease stands on a ready or draining route with the same project, sandbox and generation. */
  ghost predicate LeasesHeld(d: DiskState, active: map<OperationKey, nat>) {
    forall key | key in active :: active[key] > 0 && HoldsLive(d, key)
  }

  ghost predicate Inv(v: View) {
    && ValidDisk(v.mem) && ValidDisk(v.disk) && Extends(v.mem, v.disk)
    && LeasesHeld(v.mem, v.active)
    && (v.closed ==> v.active == map[])
  }

  lemma ExtendsReflexive(d: DiskState)
    requires ValidDisk(d)
    ensures Extends(d, d)
  {
  }

  lemma ExtendsTransitive(a: DiskState, b: DiskState, c: DiskState)
    requires Extends(a, b) && Extends(b, c)
    ensures Extends(a, c)
  {
    hide SafeName, ValidEngineId;
  }

  /** A proposal that allocates: the route is new or in standby, and nothing else has its assignment. */
  ghost predicate Allocates(d: DiskState, next: DiskState, e: Entry) {
    && next == DiskState(d.lastGeneration + 1, d.routes[e.routeId := e])
    && ValidEntry(e.routeId, e, d.lastGeneration + 1)
    && e.generation == d.lastGeneration + 1 && e.state == Attaching
    && (e.routeId in d.routes ==> d.routes[e.routeId].state == Standby)
    && (forall q | q in d.routes && q != e.routeId :: !Assigned(d.routes[q], e.projectId, e.sandboxId, e.engineId))
  }

  /** A proposal that moves one route on within its assignment. */
  ghost predicate Advances(d: DiskState, next: DiskState, active: map<OperationKey, nat>, e: Entry) {
    && e.routeId in d.routes
    && next == d.(routes := d.routes[e.routeId := e])
    && ValidEntry(e.routeId, e, d.lastGeneration)
    && SameAssignment(d.routes[e.routeId], e)
    && (HasActive(active, d.routes[e.routeId]) && d.routes[e.routeId].state in {Ready, Draining} ==>
          e.state in {Ready, Draining})
  }

  ghost predicate Forgets(d: DiskState, next: DiskState, e: Entry) {
    e.routeId in d.routes && e == d.routes[e.routeId] && e.state == Released
    && next == d.(routes := d.routes - {e.routeId})
  }

  lemma ProposalShape(d: DiskState, active: map<OperationKey, nat>, m: Mutation)
    requires WellFormed(d) && Precheck(m) == None && Mutate(d, active, m).Ok?
    ensures var (next, e) := Mutate(d, active, m).value;
            Allocates(d, next, e) || Advances(d, next, active, e) || Forgets(d, next, e)
    ensures Mutate(d, active, m).value.0.routes.Keys <= d.routes.Keys || m.Bind?
  {
    hide SafeName, ValidEngineId;
    var (next, e) := Mutate(d, active, m).value;
    assert m.routeId in d.routes ==> ValidEntry(m.routeId, d.routes[m.routeId], d.lastGeneration);
    if m.Bind? {
      forall q | q in d.routes ensures q != "" { NonEmptyKey(d, q); }
      assert Allocates(d, next, e);
    } else if m.Rebind? {
      assert Allocates(d, next, e);
    } else if m.Remove? {
      assert Forgets(d, next, e);
    } else {
      assert Advances(d, next, active, e);
    }
  }

  lemma NonEmptyKey(d: DiskState, r: string)
    requires WellFormed(d) && r in d.routes
    ensures r != ""
  {
    assert ValidEntry(r, d.routes[r], d.lastGeneration);
  }

  /** The conflict check is strong enough: a proposed state can fail validation only on the route limit. */
  lemma ProposalIsWellFormed(d: DiskState, active: map<OperationKey, nat>, m: Mutation)
    requires ValidDisk(d) && Precheck(m) == None && Mutate(d, active, m).Ok?
    ensures WellFormed(Mutate(d, active, m).value.0)
    ensures ValidDisk(Mutate(d, active, m).value.0) <==> |Mutate(d, active, m).value.0.routes| <= MAX_ROUTES
    ensures !m.Bind? ==> ValidDisk(Mutate(d, active, m).value.0)
  {
    hide WellFormed, Precheck, Mutate, Allocates, Advances, Forgets;
    var (next, e) := Mutate(d, active, m).value;
    ProposalShape(d, active, m);
    ShapeIsWellFormed(d, next, active, e);
    if !m.Bind? {
      SubmapSize(next.routes, d.routes);
    }
  }

  lemma SubmapSize(a: map<string, Entry>, b: map<string, Entry>)
    requires a.Keys <= b.Keys
    ensures |a| <= |b|
  {
    assert b.Keys == a.Keys + (b.Keys - a.Keys);
    assert |a| == |a.Keys| && |b| == |b.Keys|;
  }

  lemma ShapeIsWellFormed(d: DiskState, next: DiskState, active: map<OperationKey, nat>, e: Entry)
    requires WellFormed(d)
    requires Allocates(d, next, e) || Advances(d, next, active, e) || Forgets(d, next, e)
    ensures WellFormed(next)
  {
    hide SafeName, ValidEngineId, ValidIdentity;
    forall q | q in next.routes ensures ValidEntry(q, next.routes[q], next.lastGeneration) {
      assert q != e.routeId ==> ValidEntry(q, d.routes[q], d.lastGeneration);
    }
    forall q, r | q in next.routes && r in next.routes && q != r ensures Compatible(next.routes[q], next.routes[r]) {
      assert q in d.routes && r in d.routes ==> Compatible(d.routes[q], d.routes[r]);
      assert q in d.routes ==> ValidEntry(q, d.routes[q], d.lastGeneration);
      assert r in d.routes ==> ValidEntry(r, d.routes[r], d.lastGeneration);
    }
  }

  lemma ProposalExtends(d: DiskState, active: map<OperationKey, nat>, m: Mutation)
    requires ValidDisk(d) && Precheck(m) == None && Mutate(d, active, m).Ok?
    ensures Extends(d, Mutate(d, active, m).value.0)
  {
    hide SafeName, ValidEngineId, ValidIdentity, Mutate;
    var next := Mutate(d, active, m).value.0;
    ProposalShape(d, active, m);
    forall r | r in next.routes && next.routes[r].generation <= d.lastGeneration
      ensures r in d.routes && SameAssignment(d.routes[r], next.routes[r])
    {
    }
  }

  lemma ProposalKeepsLeases(d: DiskState, active: map<OperationKey, nat>, m: Mutation)
    requires ValidDisk(d) && LeasesHeld(d, active) && Precheck(m) == None && Mutate(d, active, m).Ok?
    ensures LeasesHeld(Mutate(d, active, m).value.0, active)
  {
    hide SafeName, ValidEngineId, ValidIdentity, Mutate;
    var (next, e) := Mutate(d, active, m).value;
    ProposalShape(d, active, m);
    forall key | key in active ensures active[key] > 0 && HoldsLive(next, key) {
      assert HoldsLive(d, key);
      assert ValidEntry(key.routeId, d.routes[key.routeId], d.lastGeneration);
      if key.routeId == e.routeId {
        assert KeyOf(d.routes[e.routeId]) == key;
      }
    }
  }

  lemma UpdateKeepsInv(v: View, m: Mutation, p: Persist)
    requires Inv(v)
    ensures Inv(Update(v, m, p).0) && Extends(v.mem, Update(v, m, p).0.mem)
  {
    hide Mutate, Precheck, WellFormed, ValidDisk, LeasesHeld, Extends;
    ExtendsReflexive(v.mem);
    if Precheck(m) == None && !v.closed && Mutate(v.mem, v.active, m).Ok? {
      var next := Mutate(v.mem, v.active, m).value.0;
      ProposalIsWellFormed(v.mem, v.active, m);
      ProposalExtends(v.mem, v.active, m);
      ProposalKeepsLeases(v.mem, v.active, m);
      if ValidDisk(next) {
        ExtendsReflexive(next);
      }
    }
  }

  lemma AcquireKeepsInv(v: View, routeId: string, projectId: string, sandboxId: string, generation: nat)
    requires Inv(v)
    ensures Inv(Acquire(v, routeId, projectId, sandboxId, generation).0)
  {
    hide ValidDisk, Extends, SafeName;
  }

  /** Releasing a live lease never reaches an error branch. */
  lemma LiveReleaseSucceeds(v: View, key: OperationKey)
    requires Inv(v) && key in v.active
    ensures Release(v, key).1 == None && Inv(Release(v, key).0)
  {
    hide ValidDisk, Extends;
  }

  lemma ReopenKeepsInv(v: View)
    requires Inv(v)
    ensures Inv(Reopen(v.disk)) && Extends(v.mem, Reopen(v.disk).mem)
  {
    hide WellFormed, Extends;
    ExtendsReflexive(v.disk);
  }

  // ---------- What each operation promises its caller ----------

  function Leases(active: map<OperationKey, nat>, key: OperationKey): nat {
    if key in active then active[key] else 0
  }

  /** The route serves this sandbox. */
  predicate Owns(d: DiskState, routeId: string, projectId: string, sandboxId: string) {
    routeId in d.routes && d.routes[routeId].projectId == projectId && d.routes[routeId].sandboxId == sandboxId
  }

  /** What it takes to be given a lease: above all, the route is ready; draining is not enough. */
  predicate Grantable(v: View, routeId: string, projectId: string, sandboxId: string, generation: nat) {
    && SafeName(routeId) && SafeName(projectId) && SafeName(sandboxId) && generation > 0 && !v.closed
    && Owns(v.mem, routeId, projectId, sandboxId)
    && v.mem.routes[routeId].generation == generation && v.mem.routes[routeId].state == Ready
    && Leases(v.active, OperationKey(routeId, projectId, sandboxId, generation)) != MAX_UINT64
  }

  /** From `v` to `w` exactly the one lease was added, if any. */
  ghost predicate OneMoreLease(v: View, w: View, key: OperationKey, granted: bool) {
    && w.mem == v.mem && w.disk == v.disk && w.closed == v.closed
    && (forall k :: Leases(w.active, k) == Leases(v.active, k) + if granted && k == key then 1 else 0)
    && (!granted ==> w == v)
  }

  lemma AcquireExactly(v: View, routeId: string, projectId: string, sandboxId: string, generation: nat)
    ensures var (w, r) := Acquire(v, routeId, projectId, sandboxId, generation);
            && (r.Ok? <==> Grantable(v, routeId, projectId, sandboxId, generation))
            && OneMoreLease(v, w, OperationKey(routeId, projectId, sandboxId, generation), r.Ok?)
            && (r.Ok? ==> r.value == v.mem.routes[routeId])
  {
    hide SafeName;
  }

  /** Each refusal names the first check that failed. */
  lemma AcquireRefusals(v: View, routeId: string, projectId: string, sandboxId: string, generation: nat)
    ensures var r := Acquire(v, routeId, projectId, sandboxId, generation).1;
            var named := SafeName(routeId) && SafeName(projectId) && SafeName(sandboxId) && generation > 0;
            var found := named && !v.closed && Owns(v.mem, routeId, projectId, sandboxId);
            && (r == Err(Invalid) <==> !named)
            && (r == Err(Closed) <==> named && v.closed)
            && (r == Err(NotFound) <==> named && !v.closed && !found)
            && (r == Err(StaleGeneration) <==> found && v.mem.routes[routeId].generation != generation)
            && (r == Err(StateConflict) <==>
                  found && v.mem.routes[routeId].generation == generation && v.mem.routes[routeId].state != Ready)
  {
    hide SafeName;
  }

  /** Every safe name up to its own length can name an engine; nothing empty, spaced or over 1024 characters can. */
  lemma EngineIdsAre(id: string, i: nat)
    ensures SafeName(id) ==> ValidEngineId(id)
    ensures id == "" || |id| > 1_024 ==> !ValidEngineId(id)
    ensures i < |id| && (id[i] == ' ' || id[i] == '\t' || id[i] == '\n' || id[i] == '\r' || id[i] == NUL) ==>
              !ValidEngineId(id)
  {
  }

  /** A lease comes back exactly once: the count falls by one, and nothing else changes. */
  lemma ReleaseExactly(v: View, key: OperationKey)
    ensures var (w, failure) := Release(v, key);
            && (failure == None <==>
                  && !v.closed && Leases(v.active, key) > 0 && Owns(v.mem, key.routeId, key.projectId, key.sandboxId)
                  && v.mem.routes[key.routeId].generation == key.generation
                  && v.mem.routes[key.routeId].state in {Ready, Draining})
            && (failure == None ==> OneMoreLease(w, v, key, true))
            && (failure != None ==> w == v)
  {
  }

  lemma CloseExactly(v: View)
    ensures var (w, failure) := Close(v);
            && w == v.(closed := w.closed) && (w.closed <==> failure == None)
            && (failure != None <==> !v.closed && v.active != map[])
  {
  }

  /** A mutation that fails leaves memory alone, and the file too unless the write failed after the rename; no
      mutation touches leases. */
  lemma FailedUpdate(v: View, m: Mutation, p: Persist)
    ensures var (w, r) := Update(v, m, p);
            && w.active == v.active && w.closed == v.closed
            && (r.Err? ==> w.mem == v.mem && (w.disk == v.disk || p == LostAfterRename))
            && (r.Ok? ==> w.mem == w.disk && p == Synced)
            && (Precheck(m) == None && v.closed ==> r == Err(Closed))
  {
    hide Mutate, ValidDisk, Precheck;
  }

  /** What makes a ledger state valid, entry by entry and pair by pair. */
  lemma ValidDiskExactly(d: DiskState)
    ensures ValidDisk(d) <==>
              && |d.routes| <= 65_536
              && (forall r | r in d.routes ::
                    var e := d.routes[r];
                    && e.routeId == r && SafeName(r) && SafeName(e.projectId) && SafeName(e.sandboxId)
                    && 1 <= e.generation <= d.lastGeneration && e.lastActivity != 0
                    && (e.state == Released ==> e.engineId == "")
                        && (e.state != Released ==> ValidEngineId(e.engineId)))
              && (forall r, q | r in d.routes && q in d.routes && r != q ::
                    var e, f := d.routes[r], d.routes[q];
                    && e.generation != f.generation
                    && (e.state != Released && f.state != Released ==>
                          e.engineId != f.engineId && !(e.projectId == f.projectId && e.sandboxId == f.sandboxId)))
  {
    hide SafeName, ValidEngineId;
    if ValidDisk(d) {
      assert forall r | r in d.routes :: ValidEntry(r, d.routes[r], d.lastGeneration);
      assert forall r, q | r in d.routes && q in d.routes && r != q :: Compatible(d.routes[r], d.routes[q]);
    }
  }

  lemma BindExactly(v: View, routeId: string, projectId: string, sandboxId: string, engineId: string, at: int,
                    p: Persist)
    requires ValidDisk(v.mem)
    ensures var (w, r) := Update(v, Bind(routeId, projectId, sandboxId, engineId, at), p);
            && (r.Ok? <==>
                  && SafeName(routeId) && SafeName(projectId) && SafeName(sandboxId) && ValidEngineId(engineId)
                  && at != 0 && !v.closed && routeId !in v.mem.routes
                  && (forall q | q in v.mem.routes && v.mem.routes[q].state != Released ::
                        && v.mem.routes[q].engineId != engineId
                        && !(v.mem.routes[q].projectId == projectId && v.mem.routes[q].sandboxId == sandboxId))
                  && v.mem.lastGeneration < MAX_UINT64 && |v.mem.routes| < MAX_ROUTES && p == Synced)
            && (r.Ok? ==>
                  && r.value == Entry(routeId, projectId, sandboxId, engineId, v.mem.lastGeneration + 1, Attaching, at)
                  && w.mem == DiskState(v.mem.lastGeneration + 1, v.mem.routes[routeId := r.value]))
  {
    hide SafeName, ValidEngineId, WellFormed, Allocates, Advances, Forgets;
    var m := Bind(routeId, projectId, sandboxId, engineId, at);
    assert forall q | q in v.mem.routes :: q != "" by {
      forall q | q in v.mem.routes ensures q != "" { NonEmptyKey(v.mem, q); }
    }
    if Precheck(m) == None && Mutate(v.mem, v.active, m).Ok? {
      ProposalIsWellFormed(v.mem, v.active, m);
    }
  }

  /** A rebind gives a parked route a fresh generation and starts it over. */
  lemma RebindExactly(v: View, routeId: string, generation: nat, expected: RouteState, engineId: string, at: int,
                      p: Persist)
    requires ValidDisk(v.mem)
    ensures var (w, r) := Update(v, Rebind(routeId, generation, expected, engineId, at), p);
            && (r.Ok? <==>
                  && SafeName(routeId) && ValidEngineId(engineId) && expected == Standby && at != 0 && !v.closed
                  && routeId in v.mem.routes && v.mem.routes[routeId].generation == generation
                  && v.mem.routes[routeId].state == Standby && v.mem.routes[routeId].lastActivity <= at
                  && (forall q | q in v.mem.routes && q != routeId && v.mem.routes[q].state != Released ::
                        && v.mem.routes[q].engineId != engineId
                        && !(v.mem.routes[q].projectId == v.mem.routes[routeId].projectId
                             && v.mem.routes[q].sandboxId == v.mem.routes[routeId].sandboxId))
                  && v.mem.lastGeneration < MAX_UINT64 && p == Synced)
            && (r.Ok? ==>
                  && r.value == Entry(routeId, v.mem.routes[routeId].projectId, v.mem.routes[routeId].sandboxId,
                                      engineId,
                                      v.mem.lastGeneration + 1, Attaching, at)
                  && w.mem == DiskState(v.mem.lastGeneration + 1, v.mem.routes[routeId := r.value]))
  {
    hide SafeName, ValidEngineId, ValidIdentity, Compatible, Allocates, Advances, Forgets;
    var m := Rebind(routeId, generation, expected, engineId, at);
    assert routeId in v.mem.routes ==> ValidEntry(routeId, v.mem.routes[routeId], v.mem.lastGeneration);
    if Precheck(m) == None && Mutate(v.mem, v.active, m).Ok? {
      ProposalIsWellFormed(v.mem, v.active, m);
    }
  }

  /** The route lifecycle, edge by edge. */
  const EDGES: set<(RouteState, RouteState)> :=
    {(Attaching, Ready), (Attaching, Released), (Ready, Draining), (Draining, Ready), (Draining, Standby),
     (Draining, Released), (Standby, Released)}

  /** A transition is a compare-and-swap along one edge; leaving draining for good waits for the last lease. */
  lemma TransitionExactly(v: View, routeId: string, generation: nat, expected: RouteState, next: RouteState, p: Persist)
    requires ValidDisk(v.mem)
    ensures var (w, r) := Update(v, Transition(routeId, generation, expected, next), p);
            && (r.Ok? <==>
                  && SafeName(routeId) && !v.closed && routeId in v.mem.routes
                  && v.mem.routes[routeId].generation == generation && v.mem.routes[routeId].state == expected
                  && (expected, next) in EDGES
                  && (next in {Standby, Released} && expected == Draining ==>
                      Leases(v.active, KeyOf(v.mem.routes[routeId])) == 0)
                  && p == Synced)
            && (r.Ok? ==>
                  && r.value == v.mem.routes[routeId].(state := next,
                                                       engineId := if next == Released then ""
                                                           else v.mem.routes[routeId].engineId)
                  && w.mem == v.mem.(routes := v.mem.routes[routeId := r.value]))
  {
    hide SafeName, ValidEngineId, WellFormed, Allocates, Advances, Forgets;
    var m := Transition(routeId, generation, expected, next);
    if Precheck(m) == None && Mutate(v.mem, v.active, m).Ok? {
      ProposalIsWellFormed(v.mem, v.active, m);
    }
  }

  lemma TouchExactly(v: View, routeId: string, generation: nat, expected: RouteState, at: int, p: Persist)
    requires ValidDisk(v.mem)
    ensures var (w, r) := Update(v, Touch(routeId, generation, expected, at), p);
            && (r.Ok? <==>
                  && SafeName(routeId) && expected in {Ready, Draining} && at != 0 && !v.closed
                  && routeId in v.mem.routes
                  && v.mem.routes[routeId].generation == generation && v.mem.routes[routeId].state == expected
                  && v.mem.routes[routeId].lastActivity <= at && p == Synced)
            && (r.Ok? ==>
                  && r.value == v.mem.routes[routeId].(lastActivity := at)
                  && w.mem == v.mem.(routes := v.mem.routes[routeId := r.value]))
  {
    hide SafeName, ValidEngineId, WellFormed, Allocates, Advances, Forgets;
    var m := Touch(routeId, generation, expected, at);
    if Precheck(m) == None && Mutate(v.mem, v.active, m).Ok? {
      ProposalIsWellFormed(v.mem, v.active, m);
    }
  }

  lemma RemoveExactly(v: View, routeId: string, generation: nat, expected: RouteState, p: Persist)
    requires ValidDisk(v.mem)
    ensures var (w, r) := Update(v, Remove(routeId, generation, expected), p);
            && (r.Ok? <==>
                  && SafeName(routeId) && expected == Released && !v.closed && routeId in v.mem.routes
                  && v.mem.routes[routeId].generation == generation && v.mem.routes[routeId].state == Released
                  && p == Synced)
            && (r.Ok? ==> r.value == v.mem.routes[routeId] && w.mem == v.mem.(routes := v.mem.routes - {routeId}))
  {
    hide SafeName, ValidEngineId, WellFormed, Allocates, Advances, Forgets;
    var m := Remove(routeId, generation, expected);
    if Precheck(m) == None && Mutate(v.mem, v.active, m).Ok? {
      ProposalIsWellFormed(v.mem, v.active, m);
    }
  }

  /** Compare-and-swap refusals on an open ledger: a missing route, then a stale generation, then another state. */
  lemma SwapRefusals(v: View, m: Mutation, p: Persist)
    requires !m.Bind? && Precheck(m) == None && !v.closed
    ensures var r := Update(v, m, p).1;
            && (r == Err(NotFound) <==> m.routeId !in v.mem.routes)
            && (r == Err(StaleGeneration) <==>
                m.routeId in v.mem.routes
                && v.mem.routes[m.routeId].generation != m.generation)
            && (r == Err(StateConflict) <==>
                  && m.routeId in v.mem.routes && v.mem.routes[m.routeId].generation == m.generation
                  && v.mem.routes[m.routeId].state != m.expected)
  {
    hide SafeName, ValidEngineId, ValidDisk, Conflicts, AllowedTransition, HasActive;
  }

  /** The ledger process. `disk` is the content of the ledger file. */
  class Ledger {
    var mem: DiskState
    var disk: DiskState
    var activeOperations: map<OperationKey, nat>
    var closed: bool

    function ToView(): View
      reads this
    {
      View(mem, disk, activeOperations, closed)
    }

    /** Opens an existing file. */
    constructor (file: DiskState)
      ensures ToView() == Reopen(file)
    {
      mem, disk, activeOperations, closed := file, file, map[], false;
    }

    method CommitState(next: DiskState, p: Persist) returns (failure: Option<Error>)
      modifies this
      ensures (ToView(), failure) == Commit(old(ToView()), next, p)
    {
      var ok := ValidateDiskState(next);
      if !ok {
        return Some(Corrupt);
      }
      if p == LostBeforeRename {
        return Some(PersistFailed);
      }
      disk := next;
      if p == LostAfterRename {
        return Some(PersistFailed);
      }
      mem := next;
      return None;
    }

    method BindRoute(routeId: string, projectId: string, sandboxId: string, engineId: string, at: int, p: Persist)
      returns (r: Result<Entry>)
      modifies this
      ensures (ToView(), r) == Update(old(ToView()), Bind(routeId, projectId, sandboxId, engineId, at), p)
    {
      hide SafeName, ValidEngineId, ValidDisk;
      if !ValidIdentity(routeId, projectId, sandboxId) || !ValidEngineId(engineId) || at == 0 {
        return Err(Invalid);
      }
      if closed {
        return Err(Closed);
      }
      if routeId in mem.routes {
        return Err(Conflict);
      }
      var conflict := AssignmentConflicts(mem.routes, "", projectId, sandboxId, engineId);
      if conflict {
        return Err(Conflict);
      }
      if mem.lastGeneration >= MAX_UINT64 {
        return Err(Exhausted);
      }
      var e := Entry(routeId, projectId, sandboxId, engineId, mem.lastGeneration + 1, Attaching, at);
      var failure := CommitState(DiskState(e.generation, mem.routes[routeId := e]), p);
      return if failure.Some? then Err(failure.value) else Ok(e);
    }

    method RebindRoute(routeId: string, generation: nat, expected: RouteState, engineId: string, at: int, p: Persist)
      returns (r: Result<Entry>)
      modifies this
      ensures (ToView(), r) == Update(old(ToView()), Rebind(routeId, generation, expected, engineId, at), p)
    {
      hide SafeName, ValidEngineId, ValidDisk;
      if !SafeName(routeId) || !ValidEngineId(engineId) {
        return Err(Invalid);
      }
      if expected != Standby {
        return Err(IllegalTransition);
      }
      if at == 0 {
        return Err(Invalid);
      }
      if closed {
        return Err(Closed);
      }
      var found := Lookup(mem, routeId, generation, expected);
      if found.Err? {
        return found;
      }
      var current := found.value;
      if at < current.lastActivity {
        return Err(Invalid);
      }
      var conflict := AssignmentConflicts(mem.routes, routeId, current.projectId, current.sandboxId, engineId);
      if conflict {
        return Err(Conflict);
      }
      if mem.lastGeneration >= MAX_UINT64 {
        return Err(Exhausted);
      }
      var e := current.(engineId := engineId, generation := mem.lastGeneration + 1, state := Attaching,
                        lastActivity := at);
      var failure := CommitState(DiskState(e.generation, mem.routes[routeId := e]), p);
      return if failure.Some? then Err(failure.value) else Ok(e);
    }

    method TransitionRoute(routeId: string, generation: nat, expected: RouteState, next: RouteState, p: Persist)
      returns (r: Result<Entry>)
      modifies this
      ensures (ToView(), r) == Update(old(ToView()), Transition(routeId, generation, expected, next), p)
    {
      hide SafeName, ValidEngineId, ValidDisk;
      if !SafeName(routeId) {
        return Err(Invalid);
      }
      if closed {
        return Err(Closed);
      }
      var found := Lookup(mem, routeId, generation, expected);
      if found.Err? {
        return found;
      }
      if !AllowedTransition(expected, next) {
        return Err(IllegalTransition);
      }
      if expected == Draining && (next == Standby || next == Released) && HasActive(activeOperations, found.value) {
        return Err(ActiveOperations);
      }
      var e := found.value.(state := next, engineId := if next == Released then "" else found.value.engineId);
      var failure := CommitState(mem.(routes := mem.routes[routeId := e]), p);
      return if failure.Some? then Err(failure.value) else Ok(e);
    }

    method TouchRoute(routeId: string, generation: nat, expected: RouteState, at: int, p: Persist)
      returns (r: Result<Entry>)
      modifies this
      ensures (ToView(), r) == Update(old(ToView()), Touch(routeId, generation, expected, at), p)
    {
      hide SafeName, ValidEngineId, ValidDisk;
      if !SafeName(routeId) || (expected != Ready && expected != Draining) || at == 0 {
        return Err(Invalid);
      }
      if closed {
        return Err(Closed);
      }
      var found := Lookup(mem, routeId, generation, expected);
      if found.Err? {
        return found;
      }
      if at < found.value.lastActivity {
        return Err(Invalid);
      }
      var e := found.value.(lastActivity := at);
      var failure := CommitState(mem.(routes := mem.routes[routeId := e]), p);
      return if failure.Some? then Err(failure.value) else Ok(e);
    }

    method RemoveRoute(routeId: string, generation: nat, expected: RouteState, p: Persist) returns (r: Result<Entry>)
      modifies this
      ensures (ToView(), r) == Update(old(ToView()), Remove(routeId, generation, expected), p)
    {
      hide SafeName, ValidEngineId, ValidDisk;
      if !SafeName(routeId) || expected != Released {
        return Err(Invalid);
      }
      if closed {
        return Err(Closed);
      }
      var found := Lookup(mem, routeId, generation, expected);
      if found.Err? {
        return found;
      }
      var failure := CommitState(mem.(routes := mem.routes - {routeId}), p);
      return if failure.Some? then Err(failure.value) else found;
    }

    method AcquireOperation(routeId: string, projectId: string, sandboxId: string, generation: nat)
      returns (r: Result<Entry>)
      modifies this
      ensures (ToView(), r) == Acquire(old(ToView()), routeId, projectId, sandboxId, generation)
      ensures r.Ok? <==> old(Grantable(ToView(), routeId, projectId, sandboxId, generation))
      ensures OneMoreLease(old(ToView()), ToView(), OperationKey(routeId, projectId, sandboxId, generation), r.Ok?)
    {
      hide SafeName, ValidEngineId, ValidDisk, Grantable, OneMoreLease;
      AcquireExactly(ToView(), routeId, projectId, sandboxId, generation);
      if !ValidIdentity(routeId, projectId, sandboxId) || generation == 0 {
        return Err(Invalid);
      }
      if closed {
        return Err(Closed);
      }
      if routeId !in mem.routes || mem.routes[routeId].projectId != projectId
          || mem.routes[routeId].sandboxId != sandboxId {
        return Err(NotFound);
      }
      var e := mem.routes[routeId];
      if e.generation != generation {
        return Err(StaleGeneration);
      }
      if e.state != Ready {
        return Err(StateConflict);
      }
      var key := OperationKey(routeId, projectId, sandboxId, generation);
      var count := if key in activeOperations then activeOperations[key] else 0;
      if count == MAX_UINT64 {
        return Err(ActiveOperations);
      }
      activeOperations := activeOperations[key := count + 1];
      return Ok(e);
    }

    method ReleaseOperation(key: OperationKey) returns (failure: Option<Error>)
      modifies this
      ensures (ToView(), failure) == Release(old(ToView()), key)
    {
      if closed {
        return Some(Closed);
      }
      if key !in activeOperations || activeOperations[key] == 0 {
        return Some(Invalid);
      }
      if !HoldsLive(mem, key) {
        return Some(StateConflict);
      }
      if activeOperations[key] == 1 {
        activeOperations := activeOperations - {key};
      } else {
        activeOperations := activeOperations[key := activeOperations[key] - 1];
      }
      return None;
    }

    method CloseLedger() returns (failure: Option<Error>)
      modifies this
      ensures (ToView(), failure) == Close(old(ToView()))
    {
      if closed {
        return None;
      }
      if activeOperations != map[] {
        return Some(ActiveOperations);
      }
      closed := true;
      return None;
    }
  }

  const CURRENT_SCHEMA: nat := 1

  /** What is at the ledger's path; a file whose checksum or encoding is wrong counts as unreadable. */
  datatype File = Missing | Unreadable | Stored(schemaVersion: nat, state: DiskState)

  /** Opens a ledger: a missing file is created empty, and anything but a valid state of the current schema fails
      closed. An opened ledger serves exactly what is on disk, and its invariant holds. */
  method Open(file: File, p: Persist) returns (r: Option<Ledger>)
    ensures r.Some? <==> match file
                         case Missing => p == Synced
                         case Unreadable => false
                         case Stored(schemaVersion, state) => schemaVersion == CURRENT_SCHEMA && ValidDisk(state)
    ensures r.Some? ==> !r.value.closed && r.value.activeOperations == map[] && r.value.mem == r.value.disk
    ensures r.Some? ==> r.value.mem == if file.Stored? then file.state else DiskState(0, map[])
    ensures r.Some? ==> fresh(r.value) && Inv(r.value.ToView())
                        && r.value.ToView() == Reopen(if file.Stored? then file.state else DiskState(0, map[]))
  {
    hide ValidEntry, Compatible;
    match file
    case Missing =>
      if p != Synced {
        return None;
      }
      ReopenKeepsInv(Reopen(DiskState(0, map[])));
      var ledger := new Ledger(DiskState(0, map[]));
      return Some(ledger);
    case Unreadable => return None;
    case Stored(schemaVersion, state) =>
      if schemaVersion != CURRENT_SCHEMA {
        return None;
      }
      var ok := ValidateDiskState(state);
      if !ok {
        return None;
      }
      ReopenKeepsInv(Reopen(state));
      var ledger := new Ledger(state);
      return Some(ledger);
  }
}
