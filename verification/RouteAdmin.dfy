/** The node's route administration endpoint (internal/node/route_admin_server.go): binds and
    transitions that can be retried after a lost reply, on top of the generation ledger. */
module RouteAdmin {
  import opened Identifiers
  import Ledger = NodeLedger

  datatype Action = AttachReady | Drain | ToStandby | Release

  datatype Request =
    | Resolve(routeId: string)
    | Bind(routeId: string, projectId: string, sandboxId: string, engineId: string)
    | Move(routeId: string, projectId: string, sandboxId: string, generation: nat, expected: Ledger.RouteState,
           action: Action)
    | Rebind(routeId: string, projectId: string, sandboxId: string, generation: nat, expected: Ledger.RouteState,
             engineId: string)
    | Remove(routeId: string, projectId: string, sandboxId: string, generation: nat, expected: Ledger.RouteState)

  datatype Reply = Reply(route: Ledger.Entry, replayed: bool)

  function TargetState(action: Action): Ledger.RouteState {
    match action
    case AttachReady => Ledger.Ready
    case Drain => Ledger.Draining
    case ToStandby => Ledger.Standby
    case Release => Ledger.Released
  }

  predicate ExpectedAllowed(action: Action, state: Ledger.RouteState) {
    match action
    case AttachReady => state == Ledger.Attaching
    case Drain => state == Ledger.Ready
    case ToStandby => state == Ledger.Draining
    case Release => state in {Ledger.Attaching, Ledger.Draining, Ledger.Standby}
  }

  predicate WellFormedRequest(req: Request) {
    match req
    case Resolve(r) => SafeName(r)
    case Bind(r, p, s, engine) => Ledger.ValidIdentity(r, p, s) && Ledger.ValidEngineId(engine)
    case Move(r, p, s, g, expected, action) =>
      g != 0 && Ledger.ValidIdentity(r, p, s) && ExpectedAllowed(action, expected)
    case Rebind(r, p, s, g, expected, engine) =>
      g != 0 && Ledger.ValidIdentity(r, p, s) && expected == Ledger.Standby && Ledger.ValidEngineId(engine)
    case Remove(r, p, s, g, expected) => g != 0 && Ledger.ValidIdentity(r, p, s) && expected == Ledger.Released
  }

  function ResolveAt(v: Ledger.View, routeId: string): Ledger.Result<Ledger.Entry> {
    if !SafeName(routeId) then Ledger.Err(Ledger.Invalid)
    else if v.closed then Ledger.Err(Ledger.Closed)
    else if routeId !in v.mem.routes then Ledger.Err(Ledger.NotFound)
    else Ledger.Ok(v.mem.routes[routeId])
  }

  predicate Matches(e: Ledger.Entry, projectId: string, sandboxId: string) {
    e.projectId == projectId && e.sandboxId == sandboxId
  }

  /** After a refused bind: a conflict with this very assignment is an earlier bind whose reply was lost. */
  function AfterRefusedBind(later: Ledger.View, req: Request, error: Ledger.Error): Ledger.Result<Reply>
    requires req.Bind?
  {
    var current := ResolveAt(later, req.routeId);
    if error == Ledger.Conflict && current.Ok? && Matches(current.value, req.projectId, req.sandboxId)
       && current.value.engineId == req.engineId && current.value.state in {Ledger.Attaching, Ledger.Ready}
    then Ledger.Ok(Reply(current.value, true))
    else Ledger.Err(error)
  }

  /** The lookup before a compare-and-swap: who is asking, about which generation. */
  function Identified(v: Ledger.View, routeId: string, projectId: string, sandboxId: string,
                      generation: nat): Ledger.Result<Ledger.Entry> {
    match ResolveAt(v, routeId)
    case Err(error) => Ledger.Err(error)
    case Ok(current) =>
      if !Matches(current, projectId, sandboxId) then Ledger.Err(Ledger.NotFound)
      else if current.generation != generation then Ledger.Err(Ledger.StaleGeneration)
      else Ledger.Ok(current)
  }

  function AfterRefusedMove(later: Ledger.View, req: Request, error: Ledger.Error): Ledger.Result<Reply>
    requires req.Move?
  {
    var current := ResolveAt(later, req.routeId);
    if error == Ledger.StateConflict && current.Ok? && Matches(current.value, req.projectId, req.sandboxId)
       && current.value.generation == req.generation && current.value.state == TargetState(req.action)
    then Ledger.Ok(Reply(current.value, true))
    else Ledger.Err(error)
  }

  /** A transition whose lookup, compare-and-swap and second lookup see the ledger as `v0`, `v1` and
      `v2`: other requests may run in between. */
  ghost function MoveReply(v0: Ledger.View, v1: Ledger.View, v2: Ledger.View, req: Request,
                           p: Ledger.Persist): Ledger.Result<Reply>
    requires req.Move?
  {
    match Identified(v0, req.routeId, req.projectId, req.sandboxId, req.generation)
    case Err(error) => Ledger.Err(error)
    case Ok(current) =>
      if current.state == TargetState(req.action) then Ledger.Ok(Reply(current, true))
      else if current.state != req.expected then Ledger.Err(Ledger.StateConflict)
      else
        match Ledger.Update(v1, MoveOf(req), p).1
        case Ok(e) => Ledger.Ok(Reply(e, false))
        case Err(error) => AfterRefusedMove(v2, req, error)
  }

  function MoveOf(req: Request): Ledger.Mutation
    requires req.Move?
  {
    Ledger.Transition(req.routeId, req.generation, req.expected, TargetState(req.action))
  }

  lemma MovedEntry(v: Ledger.View, req: Request, p: Ledger.Persist)
    requires req.Move? && Ledger.Update(v, MoveOf(req), p).1.Ok?
    ensures req.routeId in v.mem.routes && v.mem.routes[req.routeId].generation == req.generation
    ensures var e := Ledger.Update(v, MoveOf(req), p).1.value;
            e.state == TargetState(req.action) && e.generation == req.generation
            && Matches(e, v.mem.routes[req.routeId].projectId, v.mem.routes[req.routeId].sandboxId)
  {
    hide SafeName, Ledger.ValidDisk;
  }

  /** Whatever runs between its three sections, a transition that is answered with a route is answered
      with the requested assignment, at the requested generation, in the target state. */
  lemma MoveReplyIsExact(v0: Ledger.View, v1: Ledger.View, v2: Ledger.View, req: Request, p: Ledger.Persist)
    requires req.Move? && Ledger.ValidDisk(v0.mem) && Ledger.ValidDisk(v1.mem) && Ledger.Extends(v0.mem, v1.mem)
    requires MoveReply(v0, v1, v2, req, p).Ok?
    ensures var e := MoveReply(v0, v1, v2, req, p).value.route;
            Matches(e, req.projectId, req.sandboxId) && e.generation == req.generation
            && e.state == TargetState(req.action)
  {
    hide SafeName, Ledger.ValidEngineId, Ledger.Update, Ledger.Compatible;
    var r := req.routeId;
    if Ledger.Update(v1, MoveOf(req), p).1.Ok? {
      MovedEntry(v1, req, p);
    }
    assert r in v0.mem.routes ==> Ledger.ValidEntry(r, v0.mem.routes[r], v0.mem.lastGeneration);
    assert r in v1.mem.routes && v1.mem.routes[r].generation <= v0.mem.lastGeneration
           ==> r in v0.mem.routes && Ledger.SameAssignment(v0.mem.routes[r], v1.mem.routes[r]);
  }

  /** One request served with nothing in between. */
  ghost function Serve(v: Ledger.View, req: Request, now: int, p: Ledger.Persist): (Ledger.View, Ledger.Result<Reply>) {
    if !WellFormedRequest(req) then (v, Ledger.Err(Ledger.Invalid))
    else match req
    case Resolve(r) => (v, Answer(ResolveAt(v, r)))
    case Bind(r, project, sandbox, engine) =>
      var (v', result) := Ledger.Update(v, Ledger.Bind(r, project, sandbox, engine, now), p);
      (v', if result.Ok? then Answer(result) else AfterRefusedBind(v', req, result.error))
    case Move(r, project, sandbox, g, expected, action) =>
      var current := Identified(v, r, project, sandbox, g);
      var v' := if current.Ok? && current.value.state != TargetState(action) && current.value.state == expected
                then Ledger.Update(v, MoveOf(req), p).0 else v;
      (v', MoveReply(v, v, v', req, p))
    case Rebind(r, project, sandbox, g, expected, engine) =>
      var current := Identified(v, r, project, sandbox, g);
      if current.Err? then (v, Answer(current))
      else if current.value.state != expected then (v, Ledger.Err(Ledger.StateConflict))
      else
        var (v', result) := Ledger.Update(v, Ledger.Rebind(r, g, expected, engine, now), p);
        (v', Answer(result))
    case Remove(r, project, sandbox, g, expected) =>
      var current := Identified(v, r, project, sandbox, g);
      if current.Err? then (v, Answer(current))
      else if current.value.state != expected then (v, Ledger.Err(Ledger.StateConflict))
      else
        var (v', result) := Ledger.Update(v, Ledger.Remove(r, g, expected), p);
        (v', Answer(result))
  }

  function Answer(r: Ledger.Result<Ledger.Entry>): Ledger.Result<Reply> {
    if r.Ok? then Ledger.Ok(Reply(r.value, false)) else Ledger.Err(r.error)
  }

  /** The endpoint of one node. */
  class Admin {
    const ledger: Ledger.Ledger

    constructor (ledger: Ledger.Ledger)
      ensures this.ledger == ledger
    {
      this.ledger := ledger;
    }

    method ServeResolve(routeId: string) returns (r: Ledger.Result<Reply>)
      ensures (ledger.ToView(), r) == Serve(ledger.ToView(), Resolve(routeId), 0, Ledger.Synced)
    {
      r := Answer(ResolveAt(ledger.ToView(), routeId));
    }

    method ServeBind(req: Request, now: int, p: Ledger.Persist) returns (r: Ledger.Result<Reply>)
      requires req.Bind?
      modifies ledger
      ensures (ledger.ToView(), r) == Serve(old(ledger.ToView()), req, now, p)
    {
      hide SafeName, Ledger.ValidEngineId, Ledger.Update, Ledger.ValidIdentity;
      if !WellFormedRequest(req) {
        return Ledger.Err(Ledger.Invalid);
      }
      var bound := ledger.BindRoute(req.routeId, req.projectId, req.sandboxId, req.engineId, now, p);
      r := if bound.Ok? then Answer(bound) else AfterRefusedBind(ledger.ToView(), req, bound.error);
    }

    method ServeMove(req: Request, p: Ledger.Persist) returns (r: Ledger.Result<Reply>)
      requires req.Move?
      modifies ledger
      ensures forall now :: (ledger.ToView(), r) == Serve(old(ledger.ToView()), req, now, p)
    {
      hide SafeName, Ledger.ValidEngineId, Ledger.Update, Ledger.ValidIdentity;
      if !WellFormedRequest(req) {
        return Ledger.Err(Ledger.Invalid);
      }
      var current := Identified(ledger.ToView(), req.routeId, req.projectId, req.sandboxId, req.generation);
      if current.Err? {
        return Ledger.Err(current.error);
      }
      if current.value.state == TargetState(req.action) {
        return Ledger.Ok(Reply(current.value, true));
      }
      if current.value.state != req.expected {
        return Ledger.Err(Ledger.StateConflict);
      }
      var moved := ledger.TransitionRoute(req.routeId, req.generation, req.expected, TargetState(req.action), p);
      r := if moved.Ok? then Ledger.Ok(Reply(moved.value, false))
          else AfterRefusedMove(ledger.ToView(), req, moved.error);
    }

    method ServeRebind(req: Request, now: int, p: Ledger.Persist) returns (r: Ledger.Result<Reply>)
      requires req.Rebind?
      modifies ledger
      ensures (ledger.ToView(), r) == Serve(old(ledger.ToView()), req, now, p)
    {
      hide SafeName, Ledger.ValidEngineId, Ledger.Update, Ledger.ValidIdentity;
      if !WellFormedRequest(req) {
        return Ledger.Err(Ledger.Invalid);
      }
      var current := Identified(ledger.ToView(), req.routeId, req.projectId, req.sandboxId, req.generation);
      if current.Err? {
        return Answer(current);
      }
      if current.value.state != req.expected {
        return Ledger.Err(Ledger.StateConflict);
      }
      var rebound := ledger.RebindRoute(req.routeId, req.generation, req.expected, req.engineId, now, p);
      r := Answer(rebound);
    }

    method ServeRemove(req: Request, p: Ledger.Persist) returns (r: Ledger.Result<Reply>)
      requires req.Remove?
      modifies ledger
      ensures forall now :: (ledger.ToView(), r) == Serve(old(ledger.ToView()), req, now, p)
    {
      hide SafeName, Ledger.ValidEngineId, Ledger.Update, Ledger.ValidIdentity;
      if !WellFormedRequest(req) {
        return Ledger.Err(Ledger.Invalid);
      }
      var current := Identified(ledger.ToView(), req.routeId, req.projectId, req.sandboxId, req.generation);
      if current.Err? {
        return Answer(current);
      }
      if current.value.state != req.expected {
        return Ledger.Err(Ledger.StateConflict);
      }
      var removed := ledger.RemoveRoute(req.routeId, req.generation, req.expected, p);
      r := Answer(removed);
    }
  }

  // ---------- One sandbox's route ----------

  /** The sandbox a controller places on the node. A route is always bound under its sandbox's own id. */
  datatype Owner = Owner(projectId: string, id: string, engineId: string)

  function Slot(v: Ledger.View, id: string): Ledger.Option<Ledger.Entry> {
    if id in v.mem.routes then Ledger.Some(v.mem.routes[id]) else Ledger.None
  }

  predicate ForOwner(req: Request, who: Owner) {
    && req.routeId == who.id
    && (req.Resolve? || (req.projectId == who.projectId && req.sandboxId == who.id))
    && (req.Bind? || req.Rebind? ==> req.engineId == who.engineId)
  }

  /** The node has room for this sandbox and nothing else there holds its assignment; a route under its
      id is its own, no older than `floor`, not in use, and last active no later than `now`. */
  ghost predicate Settled(v: Ledger.View, who: Owner, floor: nat, now: int) {
    && Ledger.Inv(v) && !v.closed
    && Ledger.ValidIdentity(who.id, who.projectId, who.id) && Ledger.ValidEngineId(who.engineId) && now != 0
    && floor <= v.mem.lastGeneration
    && (who.id !in v.mem.routes ==> |v.mem.routes| < Ledger.MAX_ROUTES)
    && (forall q | q in v.mem.routes && q != who.id :: !Ledger.Assigned(v.mem.routes[q], who.projectId, who.id,
                                                                        who.engineId))
    && (who.id in v.mem.routes ==> Own(v.mem.routes[who.id], who, floor, now))
    && (forall key | key in v.active :: key.routeId != who.id)
  }

  predicate Own(e: Ledger.Entry, who: Owner, floor: nat, now: int) {
    e.projectId == who.projectId && e.sandboxId == who.id && e.generation >= floor && e.lastActivity <= now
  }

  /** The one-route machine: what a request does to the sandbox's own route and to the clock. */
  function Step(slot: Ledger.Option<Ledger.Entry>, last: nat, req: Request, who: Owner, now: int)
    : (Ledger.Option<Ledger.Entry>, nat, Ledger.Result<Reply>)
  {
    if !WellFormedRequest(req) then (slot, last, Ledger.Err(Ledger.Invalid))
    else if req.Bind? then
      if slot.None? then
        if last >= Ledger.MAX_UINT64 then (slot, last, Ledger.Err(Ledger.Exhausted))
        else
          var e := Ledger.Entry(who.id, who.projectId, who.id, who.engineId, last + 1, Ledger.Attaching, now);
          (Ledger.Some(e), last + 1, Ledger.Ok(Reply(e, false)))
      else if slot.value.engineId == who.engineId && slot.value.state in {Ledger.Attaching, Ledger.Ready} then
        (slot, last, Ledger.Ok(Reply(slot.value, true)))
      else (slot, last, Ledger.Err(Ledger.Conflict))
    else if slot.None? then (slot, last, Ledger.Err(Ledger.NotFound))
    else if req.Resolve? then (slot, last, Ledger.Ok(Reply(slot.value, false)))
    else if slot.value.generation != req.generation then (slot, last, Ledger.Err(Ledger.StaleGeneration))
    else if req.Move? && slot.value.state == TargetState(req.action)
        then (slot, last, Ledger.Ok(Reply(slot.value, true)))
    else if slot.value.state != req.expected then (slot, last, Ledger.Err(Ledger.StateConflict))
    else if req.Remove? then (Ledger.None, last, Ledger.Ok(Reply(slot.value, false)))
    else if req.Move? then
      var e := slot.value.(state := TargetState(req.action),
                           engineId := if req.action == Release then "" else slot.value.engineId);
      (Ledger.Some(e), last, Ledger.Ok(Reply(e, false)))
    else if last >= Ledger.MAX_UINT64 then (slot, last, Ledger.Err(Ledger.Exhausted))
    else
      var e := slot.value.(engineId := req.engineId, generation := last + 1, state := Ledger.Attaching,
                           lastActivity := now);
      (Ledger.Some(e), last + 1, Ledger.Ok(Reply(e, false)))
  }

  predicate SameElsewhere(a: map<string, Ledger.Entry>, b: map<string, Ledger.Entry>, id: string) {
    && (forall q | q in a && q != id :: q in b && b[q] == a[q])
    && (forall q | q in b && q != id :: q in a)
  }

  /** Nothing but the route `id` and the clock differs between what the two views serve. */
  ghost predicate Local(v: Ledger.View, v': Ledger.View, id: string) {
    && SameElsewhere(v.mem.routes, v'.mem.routes, id)
    && v'.active == v.active && v'.closed == v.closed
    && v.mem.lastGeneration <= v'.mem.lastGeneration
  }

  function MutationOf(req: Request, now: int): Ledger.Mutation
    requires !req.Resolve?
  {
    match req
    case Bind(r, project, sandbox, engine) => Ledger.Bind(r, project, sandbox, engine, now)
    case Move(_, _, _, _, _, _) => MoveOf(req)
    case Rebind(r, _, _, g, expected, engine) => Ledger.Rebind(r, g, expected, engine, now)
    case Remove(r, _, _, g, expected) => Ledger.Remove(r, g, expected)
  }

  /** On a settled node the mutation behind a request is refused or does what the one-route machine does. */
  lemma MutationIsLocal(v: Ledger.View, req: Request, who: Owner, floor: nat, now: int)
    requires Settled(v, who, floor, now) && ForOwner(req, who) && WellFormedRequest(req) && !req.Resolve?
    requires !req.Bind? ==> who.id in v.mem.routes && v.mem.routes[who.id].generation == req.generation
                            && v.mem.routes[who.id].state == req.expected
    requires req.Move? ==> req.expected != TargetState(req.action)
    ensures Ledger.Precheck(MutationOf(req, now)) == Ledger.None
    ensures var (slot, last, r) := Step(Slot(v, who.id), v.mem.lastGeneration, req, who, now);
            var m := Ledger.Mutate(v.mem, v.active, MutationOf(req, now));
            if r.Ok? && !r.value.replayed then
              && m.Ok? && m.value.1 == r.value.route && m.value.0.lastGeneration == last
              && m.value.0.routes == if slot.Some? then v.mem.routes[who.id := slot.value] else v.mem.routes - {who.id}
            else m == Ledger.Err(if r.Ok? then Ledger.Conflict else r.error)
  {
    hide SafeName, Ledger.ValidEngineId, Ledger.Inv, Ledger.WellFormed, Ledger.Conflicts;
    SettledParts(v, who, floor, now);
  }

  lemma SettledParts(v: Ledger.View, who: Owner, floor: nat, now: int)
    requires Settled(v, who, floor, now)
    ensures who.id in v.mem.routes ==> Ledger.ValidEntry(who.id, v.mem.routes[who.id], v.mem.lastGeneration)
                                       && !Ledger.HasActive(v.active, v.mem.routes[who.id])
    ensures !Ledger.Conflicts(v.mem.routes, who.id, who.projectId, who.id, who.engineId)
    ensures who.id !in v.mem.routes ==> !Ledger.Conflicts(v.mem.routes, "", who.projectId, who.id, who.engineId)
  {
    hide SafeName, Ledger.ValidEngineId, Ledger.Extends, Ledger.LeasesHeld, Ledger.Compatible;
  }

  /** How the node may answer one request, in terms of the sandbox's own route: as the one-route machine
      does or, when the durable write fails, with an error and no effect. */
  ghost predicate Answers(v: Ledger.View, v': Ledger.View, r: Ledger.Result<Reply>, req: Request, who: Owner,
                          now: int, p: Ledger.Persist) {
    var (slot, last, result) := Step(Slot(v, who.id), v.mem.lastGeneration, req, who, now);
    || (Slot(v', who.id) == slot && v'.mem.lastGeneration == last && r == result)
    || (p != Ledger.Synced && v'.mem == v.mem && r == Ledger.Err(Ledger.PersistFailed))
  }

  function Placed(routes: map<string, Ledger.Entry>, id: string, slot: Ledger.Option<Ledger.Entry>)
    : map<string, Ledger.Entry>
  {
    if slot.Some? then routes[id := slot.value] else routes - {id}
  }

  lemma PlacedElsewhere(routes: map<string, Ledger.Entry>, id: string, slot: Ledger.Option<Ledger.Entry>)
    ensures var placed := Placed(routes, id, slot);
            SameElsewhere(routes, placed, id) && (id in placed <==> slot.Some?)
            && (slot.Some? ==> placed[id] == slot.value)
  {
  }

  lemma PlacedIsLocal(v: Ledger.View, v': Ledger.View, who: Owner, floor: nat, now: int,
                      slot: Ledger.Option<Ledger.Entry>)
    requires Settled(v, who, floor, now) && Ledger.Inv(v') && v'.active == v.active && v'.closed == v.closed
    requires v'.mem.routes == Placed(v.mem.routes, who.id, slot) && v.mem.lastGeneration <= v'.mem.lastGeneration
    requires slot.Some? ==> Own(slot.value, who, floor, now)
    requires slot.None? ==> |v'.mem.routes| < Ledger.MAX_ROUTES
    ensures Settled(v', who, floor, now) && Local(v, v', who.id) && Slot(v', who.id) == slot
  {
    hide Ledger.ValidIdentity, Ledger.ValidEngineId, Ledger.Inv, Ledger.Assigned, Own, Placed;
    PlacedElsewhere(v.mem.routes, who.id, slot);
    forall q | q in v'.mem.routes && q != who.id
      ensures !Ledger.Assigned(v'.mem.routes[q], who.projectId, who.id, who.engineId)
    {
      assert q in v.mem.routes;
    }
  }

  lemma StepKeepsOwn(v: Ledger.View, req: Request, who: Owner, floor: nat, now: int)
    requires Settled(v, who, floor, now) && ForOwner(req, who)
    ensures var (slot, last, _) := Step(Slot(v, who.id), v.mem.lastGeneration, req, who, now);
            v.mem.lastGeneration <= last && (slot.Some? ==> Own(slot.value, who, floor, now))
  {
    hide WellFormedRequest, Ledger.Inv, Ledger.Assigned, Ledger.ValidIdentity, Ledger.ValidEngineId;
  }

  lemma CommitIsLocal(v: Ledger.View, req: Request, who: Owner, floor: nat, now: int, p: Ledger.Persist)
    requires Settled(v, who, floor, now) && ForOwner(req, who) && WellFormedRequest(req) && !req.Resolve?
    requires !req.Bind? ==> who.id in v.mem.routes && v.mem.routes[who.id].generation == req.generation
                            && v.mem.routes[who.id].state == req.expected
    requires req.Move? ==> req.expected != TargetState(req.action)
    ensures var (v', r) := Ledger.Update(v, MutationOf(req, now), p);
            var (slot, last, result) := Step(Slot(v, who.id), v.mem.lastGeneration, req, who, now);
            && Settled(v', who, floor, now) && Local(v, v', who.id)
            && (if result.Ok? && result.value.replayed then v' == v && r == Ledger.Err(Ledger.Conflict)
                else Answers(v, v', Answer(r), req, who, now, p))
  {
    hide SafeName, Ledger.ValidEngineId, Ledger.Inv, Ledger.ValidDisk, Ledger.Mutate, Ledger.Precheck,
         Ledger.Assigned, Settled, WellFormedRequest;
    var m := MutationOf(req, now);
    SettledIsOpen(v, who, floor, now);
    MutationIsLocal(v, req, who, floor, now);
    Ledger.UpdateKeepsInv(v, m, p);
    StepKeepsOwn(v, req, who, floor, now);
    var (slot, last, result) := Step(Slot(v, who.id), v.mem.lastGeneration, req, who, now);
    var (v', r) := Ledger.Update(v, m, p);
    if result.Ok? && !result.value.replayed {
      var next := Ledger.Mutate(v.mem, v.active, m).value.0;
      ProposalFits(v, req, who, floor, now, next, slot);
      if p == Ledger.Synced {
        PlacedIsLocal(v, v', who, floor, now, slot);
      } else {
        FileOnlyIsLocal(v, v', who, floor, now);
      }
    } else {
      StepRefused(v, req, who, now);
    }
  }

  lemma StepRefused(v: Ledger.View, req: Request, who: Owner, now: int)
    requires var r := Step(Slot(v, who.id), v.mem.lastGeneration, req, who, now).2; r.Ok? ==> r.value.replayed
    ensures var (slot, last, r) := Step(Slot(v, who.id), v.mem.lastGeneration, req, who, now);
            req.Resolve? || (slot == Slot(v, who.id) && last == v.mem.lastGeneration)
  {
    hide WellFormedRequest;
  }

  lemma SettledIsOpen(v: Ledger.View, who: Owner, floor: nat, now: int)
    requires Settled(v, who, floor, now)
    ensures Ledger.Inv(v) && !v.closed && SafeName(who.id)
    ensures who.id in v.mem.routes ==> Own(v.mem.routes[who.id], who, floor, now)
  {
    hide Ledger.Inv, Ledger.Assigned, SafeName, Ledger.ValidEngineId;
  }

  lemma FileOnlyIsLocal(v: Ledger.View, v': Ledger.View, who: Owner, floor: nat, now: int)
    requires Settled(v, who, floor, now) && Ledger.Inv(v') && v'.mem == v.mem && v'.active == v.active
             && v'.closed == v.closed
    ensures Settled(v', who, floor, now) && Local(v, v', who.id)
  {
    hide Ledger.Inv, Ledger.Assigned, Ledger.ValidIdentity, Ledger.ValidEngineId;
  }

  lemma ProposalFits(v: Ledger.View, req: Request, who: Owner, floor: nat, now: int, next: Ledger.DiskState,
                     slot: Ledger.Option<Ledger.Entry>)
    requires Settled(v, who, floor, now) && !req.Resolve? && Ledger.Precheck(MutationOf(req, now)) == Ledger.None
    requires Ledger.Mutate(v.mem, v.active, MutationOf(req, now)).Ok?
             && next == Ledger.Mutate(v.mem, v.active, MutationOf(req, now)).value.0
    requires next.routes == Placed(v.mem.routes, who.id, slot)
    ensures Ledger.ValidDisk(next)
    ensures slot.None? ==> |next.routes| < Ledger.MAX_ROUTES
  {
    hide SafeName, Ledger.ValidEngineId, Ledger.WellFormed, Ledger.Mutate, Ledger.Precheck, Ledger.Assigned,
         Ledger.Extends, Ledger.LeasesHeld;
    Ledger.ProposalIsWellFormed(v.mem, v.active, MutationOf(req, now));
    if slot.None? {
      assert next.routes.Keys == v.mem.routes.Keys - {who.id};
      assert |next.routes.Keys| == |next.routes|;
    } else {
      assert next.routes.Keys == v.mem.routes.Keys + {who.id};
    }
  }

  /** Refinement: on a settled node, serving any request of the sandbox's controller is a step of the
      one-route machine (or a failed write); it touches no other route and leaves the node settled. */
  lemma ServeIsLocal(v: Ledger.View, req: Request, who: Owner, floor: nat, now: int, p: Ledger.Persist)
    requires Settled(v, who, floor, now) && ForOwner(req, who)
    ensures var (v', r) := Serve(v, req, now, p);
            Settled(v', who, floor, now) && Local(v, v', who.id) && Answers(v, v', r, req, who, now, p)
  {
    hide SafeName, Ledger.ValidEngineId, Ledger.Inv, Ledger.Update, Ledger.Assigned, Settled;
    var id := who.id;
    SettledIsOpen(v, who, floor, now);
    if WellFormedRequest(req) && !req.Resolve?
       && (req.Bind? || (id in v.mem.routes && v.mem.routes[id].generation == req.generation
                         && v.mem.routes[id].state == req.expected
                         && (req.Move? ==> req.expected != TargetState(req.action)))) {
      CommitIsLocal(v, req, who, floor, now, p);
    }
  }

  /** A bind or transition repeated after its reply was lost changes nothing more and is answered with
      the same route at the same generation. */
  lemma RetryIsReplayed(slot: Ledger.Option<Ledger.Entry>, last: nat, req: Request, who: Owner, now: int, later: int)
    requires (req.Bind? || req.Move?) && ForOwner(req, who) && Step(slot, last, req, who, now).2.Ok?
    ensures var (slot', last', r) := Step(slot, last, req, who, now);
            Step(slot', last', req, who, later) == (slot', last', Ledger.Ok(Reply(r.value.route, true)))
  {
    hide WellFormedRequest;
  }

  // ---------- What any caller is held to ----------

  /** The request names the route's own sandbox and its present generation. */
  predicate Entitled(v: Ledger.View, req: Request) {
    && !req.Resolve? && !req.Bind? && req.routeId in v.mem.routes
    && v.mem.routes[req.routeId].projectId == req.projectId && v.mem.routes[req.routeId].sandboxId == req.sandboxId
    && v.mem.routes[req.routeId].generation == req.generation
  }

  lemma UpdateIsGuarded(v: Ledger.View, m: Ledger.Mutation, p: Ledger.Persist)
    ensures var (w, r) := Ledger.Update(v, m, p);
            && SameElsewhere(v.mem.routes, w.mem.routes, m.routeId) && w.active == v.active && w.closed == v.closed
            && (r.Err? ==> w.mem == v.mem)
            && (r.Ok? ==> r.value.routeId == m.routeId || m.Remove? || m.routeId in v.mem.routes)
            && (m.Bind? && r.Ok? ==> r.value.projectId == m.projectId && r.value.sandboxId == m.sandboxId)
            && (!m.Bind? && r.Ok? ==>
                  && m.routeId in v.mem.routes && r.value.projectId == v.mem.routes[m.routeId].projectId
                  && r.value.sandboxId == v.mem.routes[m.routeId].sandboxId)
  {
    hide SafeName, Ledger.ValidEngineId, Ledger.ValidDisk, Ledger.Conflicts;
  }

  /** No request, whoever sends it, changes a route but the one it names; a change of a route needs its own sandbox
      and its present generation; and an answer is about that sandbox. */
  lemma ServeIsGuarded(v: Ledger.View, req: Request, now: int, p: Ledger.Persist)
    ensures var (w, r) := Serve(v, req, now, p);
            && SameElsewhere(v.mem.routes, w.mem.routes, req.routeId) && w.active == v.active && w.closed == v.closed
            && (req.Resolve? ==> w == v)
            && (!req.Bind? && w != v ==> Entitled(v, req) && v.mem.routes[req.routeId].state == req.expected)
            && (!req.Bind? && !req.Resolve? && r.Ok? ==> Entitled(v, req))
            && (!req.Resolve? && r.Ok? ==>
                  r.value.route.projectId == req.projectId && r.value.route.sandboxId == req.sandboxId)
  {
    hide SafeName, Ledger.ValidEngineId, Ledger.Update, Ledger.ValidIdentity;
    if !req.Resolve? {
      UpdateIsGuarded(v, MutationOf(req, now), p);
    }
  }

  /** How a request that is not entitled is refused: as if the route were not there, or as stale. */
  lemma StrangersAreRefused(v: Ledger.View, req: Request, now: int, p: Ledger.Persist)
    requires WellFormedRequest(req) && !req.Resolve? && !req.Bind? && !v.closed
    ensures var r := Serve(v, req, now, p).1;
            var known := req.routeId in v.mem.routes && v.mem.routes[req.routeId].projectId == req.projectId
                         && v.mem.routes[req.routeId].sandboxId == req.sandboxId;
            && (!known ==> r == Ledger.Err(Ledger.NotFound))
            && (known && v.mem.routes[req.routeId].generation != req.generation ==>
                r == Ledger.Err(Ledger.StaleGeneration))
  {
    hide Ledger.Update, Ledger.ValidEngineId;
    assert SafeName(req.routeId);
  }

  /** The state each action ends in, and the states it may start from. */
  lemma MoveServed(v: Ledger.View, req: Request, now: int, p: Ledger.Persist)
    requires req.Move? && Ledger.ValidDisk(v.mem)
    ensures var (w, r) := Serve(v, req, now, p);
            && (r.Ok? ==>
                  && r.value.route.generation == req.generation
                  && match req.action
                     case AttachReady => r.value.route.state == Ledger.Ready && req.expected == Ledger.Attaching
                     case Drain => r.value.route.state == Ledger.Draining && req.expected == Ledger.Ready
                     case ToStandby => r.value.route.state == Ledger.Standby && req.expected == Ledger.Draining
                     case Release => r.value.route.state == Ledger.Released && req.expected != Ledger.Ready)
            && (r.Ok? && r.value.replayed ==> w == v && v.mem.routes[req.routeId] == r.value.route)
            && (r.Ok? && !r.value.replayed ==>
                  && v.mem.routes[req.routeId].state == req.expected && req.routeId in w.mem.routes
                  && w.mem.routes[req.routeId] == r.value.route)
  {
    hide SafeName, Ledger.ValidEngineId, Ledger.Update, Ledger.ValidDisk, Ledger.ValidIdentity;
    Ledger.TransitionExactly(v, req.routeId, req.generation, req.expected, TargetState(req.action), p);
    Ledger.FailedUpdate(v, MoveOf(req), p);
    UpdateIsGuarded(v, MoveOf(req), p);
  }

  /** A bind is new, or is answered with the very assignment it asked for while that is attaching or ready. */
  lemma BindServed(v: Ledger.View, req: Request, now: int, p: Ledger.Persist)
    requires req.Bind? && Ledger.ValidDisk(v.mem)
    ensures var (w, r) := Serve(v, req, now, p);
            && (r.Ok? ==>
                  && r.value.route.routeId == req.routeId && r.value.route.projectId == req.projectId
                  && r.value.route.sandboxId == req.sandboxId && r.value.route.engineId == req.engineId
                  && req.routeId in w.mem.routes && w.mem.routes[req.routeId] == r.value.route)
            && (r.Ok? && r.value.replayed ==>
                  && w.mem == v.mem && r.value.route.state in {Ledger.Attaching, Ledger.Ready})
            && (r.Ok? && !r.value.replayed ==>
                  && req.routeId !in v.mem.routes && r.value.route.state == Ledger.Attaching
                  && r.value.route.generation == v.mem.lastGeneration + 1 && r.value.route.lastActivity == now)
  {
    hide SafeName, Ledger.ValidEngineId, Ledger.Update, Ledger.ValidIdentity, Ledger.Compatible;
    var m := Ledger.Bind(req.routeId, req.projectId, req.sandboxId, req.engineId, now);
    Ledger.BindExactly(v, req.routeId, req.projectId, req.sandboxId, req.engineId, now, p);
    Ledger.FailedUpdate(v, m, p);
    assert req.routeId in v.mem.routes ==>
        Ledger.ValidEntry(req.routeId, v.mem.routes[req.routeId], v.mem.lastGeneration);
    var (w, bound) := Ledger.Update(v, m, p);
    if bound.Err? {
      assert w.mem == v.mem;
    }
  }

  /** A rebind starts a parked route over under a fresh generation. */
  lemma RebindServed(v: Ledger.View, req: Request, now: int, p: Ledger.Persist)
    requires req.Rebind? && Ledger.ValidDisk(v.mem)
    ensures var (w, r) := Serve(v, req, now, p);
            r.Ok? ==>
              && !r.value.replayed && v.mem.routes[req.routeId].state == Ledger.Standby
              && r.value.route.state == Ledger.Attaching && r.value.route.engineId == req.engineId
              && r.value.route.generation == v.mem.lastGeneration + 1 && r.value.route.lastActivity == now
              && req.routeId in w.mem.routes && w.mem.routes[req.routeId] == r.value.route
  {
    hide SafeName, Ledger.ValidEngineId, Ledger.Update, Ledger.ValidDisk, Ledger.ValidIdentity;
    Ledger.RebindExactly(v, req.routeId, req.generation, req.expected, req.engineId, now, p);
  }

  /** Only a released route is removed, and then it is gone. */
  lemma RemoveServed(v: Ledger.View, req: Request, now: int, p: Ledger.Persist)
    requires req.Remove? && Ledger.ValidDisk(v.mem)
    ensures var (w, r) := Serve(v, req, now, p);
            r.Ok? ==>
              && !r.value.replayed && v.mem.routes[req.routeId] == r.value.route
              && r.value.route.state == Ledger.Released
              && req.routeId !in w.mem.routes
  {
    hide SafeName, Ledger.ValidEngineId, Ledger.Update, Ledger.ValidDisk, Ledger.ValidIdentity;
    Ledger.RemoveExactly(v, req.routeId, req.generation, req.expected, p);
  }
}
