/** How the controller drives its sandbox's route on the node (internal/service/node_routes.go): short
    programs of remote calls, any of which may be lost, that end in the requested route state. */
module NodeRoutes {
  import opened Identifiers
  import Ledger = NodeLedger
  import opened RouteAdmin

  /** The fate of one remote call. */
  datatype Fate = Delivered(persist: Ledger.Persist) | RequestLost | ReplyLost(persist: Ledger.Persist)

  datatype Failure = Refused(error: Ledger.Error) | Unreachable | Mismatch | NoAssignment | RouteReleased | WrongState

  datatype CallResult = Got(reply: Reply) | Failed(failure: Failure)

  /** A sandbox row as far as routing goes; `backendId` names its engine. */
  datatype Sandbox = Sandbox(projectId: string, id: string, backendId: string, nodeId: string, routeId: string,
                             generation: nat)

  datatype Wanted = Running | Standby | Neither

  function OwnerOf(s: Sandbox): Owner {
    Owner(s.projectId, s.id, s.backendId)
  }

  predicate HasAssignment(s: Sandbox) {
    s.routeId != "" && s.generation != 0 && s.nodeId != ""
  }

  function Cleared(s: Sandbox): Sandbox {
    s.(nodeId := "", routeId := "", generation := 0)
  }

  function Assign(s: Sandbox, nodeId: string, e: Ledger.Entry): Sandbox {
    s.(nodeId := nodeId, routeId := e.routeId, generation := e.generation)
  }

  /** What the client checks of a reply before it believes it. */
  predicate Accepts(req: Request, reply: Reply) {
    var e := reply.route;
    && e.routeId == req.routeId && e.generation != 0
    && (req.Resolve? || (e.projectId == req.projectId && e.sandboxId == req.sandboxId))
    && (req.Bind? ==> e.state == Ledger.Attaching || (reply.replayed && e.state == Ledger.Ready))
    && (req.Move? ==> e.generation == req.generation && e.state == TargetState(req.action))
    && (req.Rebind? ==> !reply.replayed && e.generation > req.generation && e.state == Ledger.Attaching)
    && (req.Remove? ==> e.generation == req.generation)
  }

  function Received(req: Request, r: Ledger.Result<Reply>): CallResult {
    if r.Err? then Failed(Refused(r.error)) else if Accepts(req, r.value) then Got(r.value) else Failed(Mismatch)
  }

  /** Adopts the assignment of a transition's reply. */
  function Adopt(nodeId: string, s: Sandbox, r: CallResult): (Sandbox, Ledger.Option<Failure>) {
    if r.Failed? then (s, Ledger.Some(r.failure))
    else
      var e := r.reply.route;
      if nodeId == "" || e.routeId == "" || e.generation == 0 || e.projectId != s.projectId || e.sandboxId != s.id
      then (s, Ledger.Some(Mismatch))
      else (Assign(s, nodeId, e), Ledger.None)
  }

  /** Adopts the assignment of a lookup, which must continue the durable one. */
  function Observe(nodeId: string, s: Sandbox, r: CallResult): (Sandbox, Ledger.Option<Failure>) {
    if r.Got? && (nodeId != s.nodeId || r.reply.route.routeId != s.routeId || r.reply.route.generation < s.generation)
    then (s, Ledger.Some(Mismatch))
    else Adopt(nodeId, s, r)
  }

  function MoveFor(s: Sandbox, expected: Ledger.RouteState, action: Action): Request {
    Move(s.routeId, s.projectId, s.id, s.generation, expected, action)
  }

  /** What a call may have done to the sandbox's route: the machine's step or, on an unreliable wire, an
      error with or without that step. A lost call is never mistaken for a missing route. */
  ghost predicate Effect(slot: Ledger.Option<Ledger.Entry>, last: nat, slot': Ledger.Option<Ledger.Entry>, last': nat,
                         r: CallResult, req: Request, who: Owner, now: int, clean: bool) {
    var (s1, l1, r1) := Step(slot, last, req, who, now);
    || (slot' == s1 && last' == l1 && r == (if r1.Ok? then Got(r1.value) else Failed(Refused(r1.error))))
    || (!clean && r.Failed? && r.failure != Refused(Ledger.NotFound)
        && ((slot' == slot && last' == last) || (slot' == s1 && last' == l1)))
  }

  /** Replies of an honest node always pass the client's checks. */
  lemma RepliesAreAccepted(v: Ledger.View, req: Request, who: Owner, floor: nat, now: int)
    requires Settled(v, who, floor, now) && ForOwner(req, who)
    ensures var r := Step(Slot(v, who.id), v.mem.lastGeneration, req, who, now).2; r.Ok? ==> Accepts(req, r.value)
  {
    hide SafeName, Ledger.ValidEngineId, Ledger.Inv, Ledger.Conflicts, Ledger.Assigned;
    SettledParts(v, who, floor, now);
  }

  /** A reply the client believes is about the route it asked for, at the generation and in the state it asked for. */
  lemma BelievedReply(req: Request, r: Ledger.Result<Reply>)
    requires Received(req, r).Got?
    ensures r.Ok? && Received(req, r).reply == r.value
    ensures var e := r.value.route;
            && e.routeId == req.routeId && e.generation > 0
            && (!req.Resolve? ==> e.projectId == req.projectId && e.sandboxId == req.sandboxId)
            && match req
               case Resolve(_) => true
               case Bind(_, _, _, _) => e.state == Ledger.Attaching || (e.state == Ledger.Ready && r.value.replayed)
               case Move(_, _, _, g, _, action) =>
                 && e.generation == g
                 && (match action
                     case AttachReady => e.state == Ledger.Ready
                     case Drain => e.state == Ledger.Draining
                     case ToStandby => e.state == Ledger.Standby
                     case Release => e.state == Ledger.Released)
               case Rebind(_, _, _, g, _, _) => e.generation > g && e.state == Ledger.Attaching && !r.value.replayed
               case Remove(_, _, _, g, _) => e.generation == g
  {
  }

  /** An assignment is adopted only from a reply about this very sandbox, and exactly as it says; a lookup must also
      be of the node and route on record and not go back behind the generation on record. */
  lemma AdoptedAssignment(nodeId: string, s: Sandbox, r: CallResult)
    ensures var (out, err) := Adopt(nodeId, s, r);
            && (err == Ledger.None <==>
                  && r.Got? && nodeId != "" && r.reply.route.routeId != "" && r.reply.route.generation > 0
                  && r.reply.route.projectId == s.projectId && r.reply.route.sandboxId == s.id)
            && (err == Ledger.None ==>
                  out == s.(nodeId := nodeId, routeId := r.reply.route.routeId, generation := r.reply.route.generation))
            && (err != Ledger.None ==> out == s)
    ensures var (out, err) := Observe(nodeId, s, r);
            && (err == Ledger.None ==>
                  && Adopt(nodeId, s, r) == (out, err) && nodeId == s.nodeId && r.reply.route.routeId == s.routeId
                  && r.reply.route.generation >= s.generation)
            && (err != Ledger.None ==> out == s)
  {
  }

  /** The controller's client. `faults` is what will happen to the next calls; beyond it calls succeed. */
  class Client {
    const nodeId: string
    const admin: Admin
    var faults: seq<Fate>

    constructor (nodeId: string, admin: Admin, faults: seq<Fate>)
      ensures this.nodeId == nodeId && this.admin == admin && this.faults == faults
    {
      this.nodeId, this.admin, this.faults := nodeId, admin, faults;
    }

    function View(): Ledger.View
      reads admin.ledger
    {
      admin.ledger.ToView()
    }

    function Route(s: Sandbox): Ledger.Option<Ledger.Entry>
      reads admin.ledger
    {
      Slot(View(), s.id)
    }

    function LastGeneration(): nat
      reads admin.ledger
    {
      View().mem.lastGeneration
    }

    method Dispatch(req: Request, now: int, p: Ledger.Persist) returns (r: Ledger.Result<Reply>)
      modifies admin.ledger
      ensures (View(), r) == Serve(old(View()), req, now, p)
    {
      hide Ledger.Update, SafeName, Ledger.ValidEngineId, WellFormedRequest, ResolveAt;
      match req
      case Resolve(routeId) => r := admin.ServeResolve(routeId);
      case Bind(_, _, _, _) => r := admin.ServeBind(req, now, p);
      case Move(_, _, _, _, _, _) => r := admin.ServeMove(req, p);
      case Rebind(_, _, _, _, _, _) => r := admin.ServeRebind(req, now, p);
      case Remove(_, _, _, _, _) => r := admin.ServeRemove(req, p);
    }

    method Call(req: Request, now: int, s: Sandbox, ghost floor: nat) returns (r: CallResult)
      requires Settled(View(), OwnerOf(s), floor, now) && ForOwner(req, OwnerOf(s))
      modifies this, admin.ledger
      ensures Settled(View(), OwnerOf(s), floor, now) && Local(old(View()), View(), s.id)
      ensures Effect(old(Route(s)), old(LastGeneration()), Route(s), LastGeneration(), r, req, OwnerOf(s), now,
                     old(faults) == [])
      ensures old(faults) == [] ==> faults == []
    {
      hide Serve, Settled, Step, WellFormedRequest;
      ghost var v := View();
      var fate := if faults == [] then Delivered(Ledger.Synced) else faults[0];
      faults := if faults == [] then [] else faults[1..];
      if fate.RequestLost? {
        return Failed(Unreachable);
      }
      RepliesAreAccepted(v, req, OwnerOf(s), floor, now);
      ServeIsLocal(v, req, OwnerOf(s), floor, now, fate.persist);
      var result := Dispatch(req, now, fate.persist);
      r := if fate.ReplyLost? then Failed(Unreachable) else Received(req, result);
    }
  }

  /** Before a procedure: the node is settled for the sandbox, which is assigned, if at all, to the route of its own
      id. */
  ghost predicate Drivable(c: Client, s: Sandbox, floor: nat, now: int)
    reads c.admin.ledger
  {
    Settled(c.View(), OwnerOf(s), floor, now) && c.nodeId != "" && (s.routeId == "" || s.routeId == s.id)
  }

  /** The durable assignment names this node and a generation the route has reached. */
  predicate Tracks(nodeId: string, s: Sandbox, slot: Ledger.Option<Ledger.Entry>) {
    HasAssignment(s) && slot.Some? && s.nodeId == nodeId && s.generation <= slot.value.generation
  }

  function GenerationOf(slot: Ledger.Option<Ledger.Entry>): nat {
    if slot.Some? then slot.value.generation else 0
  }

  function EngineOf(slot: Ledger.Option<Ledger.Entry>): string {
    if slot.Some? then slot.value.engineId else ""
  }

  predicate In(slot: Ledger.Option<Ledger.Entry>, states: set<Ledger.RouteState>) {
    slot.Some? && slot.value.state in states
  }

  /** The sandbox's assignment is the route the node serves. */
  predicate Agrees(out: Sandbox, s: Sandbox, nodeId: string, slot: Ledger.Option<Ledger.Entry>) {
    slot.Some? && out == s.(nodeId := nodeId, routeId := s.id, generation := slot.value.generation)
  }

  lemma LocalReflexive(v: Ledger.View, id: string)
    ensures Local(v, v, id)
  {
  }

  lemma LocalTransitive(a: Ledger.View, b: Ledger.View, c: Ledger.View, id: string)
    requires Local(a, b, id) && Local(b, c, id)
    ensures Local(a, c, id)
  {
  }

  lemma RouteNamesItself(v: Ledger.View, who: Owner, floor: nat, now: int)
    requires Settled(v, who, floor, now)
    ensures who.id != "" && SafeName(who.id) && SafeName(who.projectId) && Ledger.ValidEngineId(who.engineId)
    ensures who.id in v.mem.routes ==>
              var e := v.mem.routes[who.id];
              e.routeId == who.id && 1 <= e.generation <= v.mem.lastGeneration && Own(e, who, floor, now)
  {
    hide Ledger.ValidEngineId, Ledger.Inv, Ledger.Conflicts, Ledger.Assigned;
    SettledParts(v, who, floor, now);
  }

  method ResolveNodeRoute(c: Client, s: Sandbox, now: int, ghost floor: nat)
    returns (r: CallResult, out: Sandbox, err: Ledger.Option<Failure>)
    requires Drivable(c, s, floor, now)
    modifies c, c.admin.ledger
    ensures Drivable(c, s, floor, now) && Local(old(c.View()), c.View(), s.id)
    ensures c.Route(s) == old(c.Route(s)) && c.LastGeneration() == old(c.LastGeneration())
    ensures err == Ledger.None ==>
            r.Got? && c.Route(s) == Ledger.Some(r.reply.route)
            && Agrees(out, s, c.nodeId, c.Route(s))
    ensures err == Ledger.Some(Refused(Ledger.NotFound)) ==> c.Route(s) == Ledger.None
    ensures err != Ledger.None ==> out == s
    ensures old(c.faults) == [] ==>
              && c.faults == []
              && (err == Ledger.None <==> Tracks(c.nodeId, s, c.Route(s)))
              && (err == Ledger.Some(Refused(Ledger.NotFound)) <==> HasAssignment(s) && c.Route(s).None?)
  {
    hide Settled, SafeName, Ledger.ValidEngineId;
    RouteNamesItself(c.View(), OwnerOf(s), floor, now);
    if !HasAssignment(s) {
      return Failed(NoAssignment), s, Ledger.Some(NoAssignment);
    }
    r := c.Call(Resolve(s.routeId), now, s, floor);
    RouteNamesItself(c.View(), OwnerOf(s), floor, now);
    var observed := Observe(c.nodeId, s, r);
    out, err := observed.0, observed.1;
  }

  method MoveNodeRoute(c: Client, s: Sandbox, expected: Ledger.RouteState, action: Action, now: int, ghost floor: nat)
    returns (out: Sandbox, err: Ledger.Option<Failure>)
    requires Drivable(c, s, floor, now) && ExpectedAllowed(action, expected)
    requires In(c.Route(s), {expected}) && Agrees(s, s, c.nodeId, c.Route(s))
    modifies c, c.admin.ledger
    ensures Drivable(c, s, floor, now) && Local(old(c.View()), c.View(), s.id)
    ensures c.LastGeneration() == old(c.LastGeneration())
    ensures c.Route(s) == old(c.Route(s)) || In(c.Route(s), {TargetState(action)})
    ensures Agrees(s, s, c.nodeId, c.Route(s)) && out == s
    ensures err == Ledger.None ==> In(c.Route(s), {TargetState(action)})
    ensures action != Release ==> EngineOf(c.Route(s)) == EngineOf(old(c.Route(s)))
    ensures old(c.faults) == [] ==> c.faults == [] && err == Ledger.None
  {
    hide Settled, SafeName, Ledger.ValidEngineId;
    RouteNamesItself(c.View(), OwnerOf(s), floor, now);
    var r := c.Call(MoveFor(s, expected, action), now, s, floor);
    RouteNamesItself(c.View(), OwnerOf(s), floor, now);
    var adopted := Adopt(c.nodeId, s, r);
    out, err := adopted.0, adopted.1;
  }

  method RebindNodeRoute(c: Client, s: Sandbox, now: int, ghost floor: nat)
    returns (out: Sandbox, err: Ledger.Option<Failure>)
    requires Drivable(c, s, floor, now) && In(c.Route(s), {Ledger.Standby}) && Agrees(s, s, c.nodeId, c.Route(s))
    modifies c, c.admin.ledger
    ensures Drivable(c, s, floor, now) && Local(old(c.View()), c.View(), s.id)
    ensures (c.Route(s) == old(c.Route(s)) && c.LastGeneration() == old(c.LastGeneration()))
            || (In(c.Route(s), {Ledger.Attaching}) && EngineOf(c.Route(s)) == s.backendId
                && GenerationOf(c.Route(s)) == c.LastGeneration() == old(c.LastGeneration()) + 1)
    ensures err == Ledger.None ==> In(c.Route(s), {Ledger.Attaching}) && Agrees(out, s, c.nodeId, c.Route(s))
    ensures old(c.faults) == [] ==>
            c.faults == []
            && (err == Ledger.None <==> old(c.LastGeneration()) < Ledger.MAX_UINT64)
  {
    hide Settled, SafeName, Ledger.ValidEngineId;
    RouteNamesItself(c.View(), OwnerOf(s), floor, now);
    var r := c.Call(Rebind(s.routeId, s.projectId, s.id, s.generation, Ledger.Standby, s.backendId), now, s, floor);
    RouteNamesItself(c.View(), OwnerOf(s), floor, now);
    var adopted := Adopt(c.nodeId, s, r);
    out, err := adopted.0, adopted.1;
  }

  method DropNodeRoute(c: Client, s: Sandbox, now: int, ghost floor: nat) returns (err: Ledger.Option<Failure>)
    requires Drivable(c, s, floor, now) && In(c.Route(s), {Ledger.Released}) && Agrees(s, s, c.nodeId, c.Route(s))
    modifies c, c.admin.ledger
    ensures Drivable(c, s, floor, now) && Local(old(c.View()), c.View(), s.id)
    ensures c.LastGeneration() == old(c.LastGeneration())
    ensures err == Ledger.None ==> c.Route(s) == Ledger.None
    ensures old(c.faults) == [] ==> c.faults == [] && err == Ledger.None
  {
    hide Settled, SafeName, Ledger.ValidEngineId;
    RouteNamesItself(c.View(), OwnerOf(s), floor, now);
    var r := c.Call(Remove(s.routeId, s.projectId, s.id, s.generation, Ledger.Released), now, s, floor);
    err := if r.Failed? then Ledger.Some(r.failure) else Ledger.None;
  }

  /** What placing a route does to it, interrupted or not: at most one generation is allocated, and only
      for a route that was absent or released. */
  predicate Places(slot: Ledger.Option<Ledger.Entry>, last: nat, slot': Ledger.Option<Ledger.Entry>, last': nat) {
    && last <= last' <= last + 1
    && (slot.Some? && slot.value.state != Ledger.Released ==> last' == last && slot'.Some?)
    && (last' != last ==> In(slot', {Ledger.Attaching, Ledger.Ready}))
  }

  /** Binds the sandbox's route and makes it ready. It succeeds, on a reliable wire, exactly when no
      route is there or an earlier attempt's route is. */
  method AttachNodeRoute(c: Client, s: Sandbox, now: int, ghost floor: nat)
    returns (out: Sandbox, err: Ledger.Option<Failure>)
    requires Drivable(c, s, floor, now)
    modifies c, c.admin.ledger
    ensures Drivable(c, s, floor, now) && Local(old(c.View()), c.View(), s.id)
    ensures Places(old(c.Route(s)), old(c.LastGeneration()), c.Route(s), c.LastGeneration())
    ensures err == Ledger.None ==> In(c.Route(s), {Ledger.Ready}) && Agrees(out, s, c.nodeId, c.Route(s))
                                   && EngineOf(c.Route(s)) == s.backendId
    ensures old(c.faults) == [] ==>
            c.faults == []
            && (err == Ledger.None <==> old(Attachable(c.Route(s), c.LastGeneration(), s)))
  {
    hide Settled, SafeName, Ledger.ValidEngineId;
    RouteNamesItself(c.View(), OwnerOf(s), floor, now);
    var routeId := if s.routeId == "" then s.id else s.routeId;
    var r := c.Call(Bind(routeId, s.projectId, s.id, s.backendId), now, s, floor);
    RouteNamesItself(c.View(), OwnerOf(s), floor, now);
    var adopted := Adopt(c.nodeId, s, r);
    out, err := adopted.0, adopted.1;
    if err != Ledger.None || r.reply.route.state == Ledger.Ready {
      return;
    }
    out, err := MoveNodeRoute(c, out, Ledger.Attaching, AttachReady, now, floor);
  }

  predicate Attachable(slot: Ledger.Option<Ledger.Entry>, last: nat, s: Sandbox) {
    if slot.None? then last < Ledger.MAX_UINT64
    else slot.value.engineId == s.backendId && slot.value.state in {Ledger.Attaching, Ledger.Ready}
  }

  /** Closes admission: ends draining or in standby, from every state but released. */
  method PrepareNodeRoutePause(c: Client, s: Sandbox, now: int, ghost floor: nat)
    returns (out: Sandbox, err: Ledger.Option<Failure>)
    requires Drivable(c, s, floor, now)
    modifies c, c.admin.ledger
    ensures Drivable(c, s, floor, now) && Local(old(c.View()), c.View(), s.id)
    ensures c.LastGeneration() == old(c.LastGeneration())
    ensures c.Route(s).Some? == old(c.Route(s)).Some?
    ensures err == Ledger.None ==>
            In(c.Route(s), {Ledger.Draining, Ledger.Standby})
            && Agrees(out, s, c.nodeId, c.Route(s))
    ensures GenerationOf(c.Route(s)) == GenerationOf(old(c.Route(s)))
    ensures old(c.faults) == [] ==>
              && c.faults == []
              && (err == Ledger.None <==> old(!In(c.Route(s), {Ledger.Released}) && Tracks(c.nodeId, s, c.Route(s))))
  {
    hide Settled, SafeName, Ledger.ValidEngineId;
    RouteNamesItself(c.View(), OwnerOf(s), floor, now);
    var resolved;
    resolved, out, err := ResolveNodeRoute(c, s, now, floor);
    if err != Ledger.None {
      return;
    }
    var state := resolved.reply.route.state;
    if state == Ledger.Attaching {
      out, err := MoveNodeRoute(c, out, Ledger.Attaching, AttachReady, now, floor);
      if err != Ledger.None {
        return;
      }
      out, err := MoveNodeRoute(c, out, Ledger.Ready, Drain, now, floor);
    } else if state == Ledger.Ready {
      out, err := MoveNodeRoute(c, out, Ledger.Ready, Drain, now, floor);
    } else if state == Ledger.Released {
      err := Ledger.Some(RouteReleased);
    }
  }

  method CompleteNodeRouteStandby(c: Client, s: Sandbox, now: int, ghost floor: nat)
    returns (out: Sandbox, err: Ledger.Option<Failure>)
    requires Drivable(c, s, floor, now)
    modifies c, c.admin.ledger
    ensures Drivable(c, s, floor, now) && Local(old(c.View()), c.View(), s.id)
    ensures c.LastGeneration() == old(c.LastGeneration())
    ensures c.Route(s).Some? == old(c.Route(s)).Some?
    ensures err == Ledger.None ==> In(c.Route(s), {Ledger.Standby}) && Agrees(out, s, c.nodeId, c.Route(s))
    ensures GenerationOf(c.Route(s)) == GenerationOf(old(c.Route(s)))
    ensures old(c.faults) == [] ==>
              && c.faults == []
              && (err == Ledger.None <==> old(In(c.Route(s), {Ledger.Draining, Ledger.Standby})
                                              && Tracks(c.nodeId, s, c.Route(s))))
  {
    hide Settled, SafeName, Ledger.ValidEngineId;
    RouteNamesItself(c.View(), OwnerOf(s), floor, now);
    var resolved;
    resolved, out, err := ResolveNodeRoute(c, s, now, floor);
    if err != Ledger.None || resolved.reply.route.state == Ledger.Standby {
      return;
    }
    if resolved.reply.route.state != Ledger.Draining {
      return out, Ledger.Some(WrongState);
    }
    out, err := MoveNodeRoute(c, out, Ledger.Draining, ToStandby, now, floor);
  }

  /** What a resume does to the route, interrupted or not. */
  predicate Resumes(slot: Ledger.Option<Ledger.Entry>, last: nat, slot': Ledger.Option<Ledger.Entry>, last': nat,
                    s: Sandbox, err: Ledger.Option<Failure>) {
    && slot'.Some? == slot.Some? && last <= last' <= last + 1
    && (err == Ledger.None ==> In(slot', {Ledger.Ready}))
    && (In(slot, {Ledger.Attaching, Ledger.Ready}) ==>
          last' == last && GenerationOf(slot') == GenerationOf(slot) && EngineOf(slot') == EngineOf(slot))
    && (err == Ledger.None && In(slot, {Ledger.Draining, Ledger.Standby}) ==>
          GenerationOf(slot') == last + 1 && EngineOf(slot') == s.backendId)
  }

  /** Makes the route ready again from every state but released. An attach already under way keeps its
      generation; a parked route gets a fresh one. */
  method ResumeNodeRoute(c: Client, s: Sandbox, now: int, ghost floor: nat)
    returns (out: Sandbox, err: Ledger.Option<Failure>)
    requires Drivable(c, s, floor, now)
    modifies c, c.admin.ledger
    ensures Drivable(c, s, floor, now) && Local(old(c.View()), c.View(), s.id)
    ensures Resumes(old(c.Route(s)), old(c.LastGeneration()), c.Route(s), c.LastGeneration(), s, err)
    ensures err == Ledger.None ==> Agrees(out, s, c.nodeId, c.Route(s))
    ensures old(c.faults) == [] ==>
              && c.faults == []
              && (err == Ledger.None <==> old(Resumable(c.Route(s), c.LastGeneration())
                                              && Tracks(c.nodeId, s, c.Route(s))))
    decreases if In(c.Route(s), {Ledger.Draining}) then 1 else 0
  {
    hide Settled, SafeName, Ledger.ValidEngineId, Effect, Step;
    RouteNamesItself(c.View(), OwnerOf(s), floor, now);
    var resolved;
    resolved, out, err := ResolveNodeRoute(c, s, now, floor);
    if err != Ledger.None || resolved.reply.route.state == Ledger.Ready {
      return;
    }
    if resolved.reply.route.state == Ledger.Released {
      return out, Ledger.Some(RouteReleased);
    }
    if resolved.reply.route.state == Ledger.Draining {
      out, err := MoveNodeRoute(c, out, Ledger.Draining, ToStandby, now, floor);
      if err != Ledger.None {
        return;
      }
      out, err := ResumeNodeRoute(c, out, now, floor);
      return;
    }
    if resolved.reply.route.state == Ledger.Standby {
      out, err := RebindNodeRoute(c, out, now, floor);
      if err != Ledger.None {
        return;
      }
    }
    out, err := MoveNodeRoute(c, out, Ledger.Attaching, AttachReady, now, floor);
  }

  predicate Resumable(slot: Ledger.Option<Ledger.Entry>, last: nat) {
    In(slot, {Ledger.Attaching, Ledger.Ready})
    || (In(slot, {Ledger.Draining, Ledger.Standby}) && last < Ledger.MAX_UINT64)
  }

  /** Takes the route from whatever state it is in to absence and forgets the assignment. */
  method RemoveNodeRoute(c: Client, s: Sandbox, now: int, ghost floor: nat)
    returns (out: Sandbox, err: Ledger.Option<Failure>)
    requires Drivable(c, s, floor, now)
    modifies c, c.admin.ledger
    ensures Drivable(c, s, floor, now) && Local(old(c.View()), c.View(), s.id)
    ensures c.LastGeneration() == old(c.LastGeneration())
    ensures s.routeId == "" ==> err == Ledger.None && out == s && c.Route(s) == old(c.Route(s))
    ensures err == Ledger.None && s.routeId != "" ==> c.Route(s) == Ledger.None && out == Cleared(s)
    ensures old(c.faults) == [] && s.routeId != "" ==>
              && c.faults == []
              && (err == Ledger.None <==> if old(c.Route(s)).None? then HasAssignment(s)
                  else Tracks(c.nodeId, s, old(c.Route(s))))
  {
    hide Settled, SafeName, Ledger.ValidEngineId, Effect, Step, Local;
    ghost var v := c.View();
    LocalReflexive(v, s.id);
    RouteNamesItself(c.View(), OwnerOf(s), floor, now);
    if s.routeId == "" {
      return s, Ledger.None;
    }
    var resolved;
    resolved, out, err := ResolveNodeRoute(c, s, now, floor);
    if err == Ledger.Some(Refused(Ledger.NotFound)) {
      return Cleared(s), Ledger.None;
    }
    if err != Ledger.None {
      return;
    }
    var state := resolved.reply.route.state;
    if state == Ledger.Attaching {
      ghost var before := c.View();
      out, err := MoveNodeRoute(c, out, Ledger.Attaching, AttachReady, now, floor);
      LocalTransitive(v, before, c.View(), s.id);
      if err != Ledger.None {
        return;
      }
      state := Ledger.Ready;
    }
    if state == Ledger.Ready {
      ghost var before := c.View();
      out, err := MoveNodeRoute(c, out, Ledger.Ready, Drain, now, floor);
      LocalTransitive(v, before, c.View(), s.id);
      if err != Ledger.None {
        return;
      }
      state := Ledger.Draining;
    }
    if state != Ledger.Released {
      ghost var before := c.View();
      out, err := MoveNodeRoute(c, out, state, Release, now, floor);
      LocalTransitive(v, before, c.View(), s.id);
      if err != Ledger.None {
        return;
      }
    }
    ghost var before := c.View();
    err := DropNodeRoute(c, out, now, floor);
    LocalTransitive(v, before, c.View(), s.id);
    if err == Ledger.None {
      out := Cleared(out);
    }
  }

  predicate Meets(slot: Ledger.Option<Ledger.Entry>, wanted: Wanted) {
    match wanted
    case Running => In(slot, {Ledger.Ready})
    case Standby => In(slot, {Ledger.Standby})
    case Neither => slot.Some? && slot.value.state != Ledger.Released
  }

  /** When a reconciliation on a reliable wire succeeds. A durable assignment needs, at most, a generation
      to allocate; without one, only an absent or half-attached route can be taken over. */
  predicate Reconcilable(nodeId: string, s: Sandbox, slot: Ledger.Option<Ledger.Entry>, last: nat, wanted: Wanted) {
    if !HasAssignment(s) then Attachable(slot, last, s)
    else if slot.None? then last < Ledger.MAX_UINT64
    else
      && Tracks(nodeId, s, slot)
      && (last < Ledger.MAX_UINT64 || slot.value.state in {Ledger.Attaching, Ledger.Ready}
          || (slot.value.state != Ledger.Released && wanted != Running))
  }

  /** Settles who serves the sandbox: afterwards a route exists, is not released, and is the assignment. */
  method PlaceNodeRoute(c: Client, s: Sandbox, now: int, ghost floor: nat)
    returns (out: Sandbox, err: Ledger.Option<Failure>)
    requires Drivable(c, s, floor, now)
    modifies c, c.admin.ledger
    ensures Drivable(c, s, floor, now) && Local(old(c.View()), c.View(), s.id)
    ensures Places(old(c.Route(s)), old(c.LastGeneration()), c.Route(s), c.LastGeneration())
    ensures err == Ledger.None ==> Meets(c.Route(s), Neither) && Agrees(out, s, c.nodeId, c.Route(s))
    ensures err == Ledger.None ==>
              if HasAssignment(s) && Meets(old(c.Route(s)), Neither) then c.Route(s) == old(c.Route(s))
                  else In(c.Route(s), {Ledger.Ready})
    ensures old(c.faults) == [] ==>
              && c.faults == []
              && (err == Ledger.None <==> old(Reconcilable(c.nodeId, s, c.Route(s), c.LastGeneration(), Neither)))
  {
    hide Settled, SafeName, Ledger.ValidEngineId, Effect, Step, Local;
    ghost var v := c.View();
    LocalReflexive(v, s.id);
    RouteNamesItself(v, OwnerOf(s), floor, now);
    if !HasAssignment(s) {
      out, err := AttachNodeRoute(c, Cleared(s), now, floor);
      return;
    }
    var resolved;
    resolved, out, err := ResolveNodeRoute(c, s, now, floor);
    ghost var before := c.View();
    if err == Ledger.Some(Refused(Ledger.NotFound)) {
      out, err := AttachNodeRoute(c, Cleared(s), now, floor);
      LocalTransitive(v, before, c.View(), s.id);
      return;
    }
    if err != Ledger.None || resolved.reply.route.state != Ledger.Released {
      return;
    }
    out, err := RemoveNodeRoute(c, out, now, floor);
    LocalTransitive(v, before, c.View(), s.id);
    if err != Ledger.None {
      return;
    }
    before := c.View();
    out, err := AttachNodeRoute(c, out, now, floor);
    LocalTransitive(v, before, c.View(), s.id);
  }

  /** Brings the route to the state the backend's observed state calls for, from every state it may be in. */
  method ReconcileNodeRoute(c: Client, s: Sandbox, wanted: Wanted, now: int, ghost floor: nat)
    returns (out: Sandbox, err: Ledger.Option<Failure>)
    requires Drivable(c, s, floor, now)
    modifies c, c.admin.ledger
    ensures Drivable(c, s, floor, now) && Local(old(c.View()), c.View(), s.id)
    ensures old(c.LastGeneration()) <= c.LastGeneration() <= old(c.LastGeneration()) + 1
    ensures err == Ledger.None ==> Meets(c.Route(s), wanted) && Agrees(out, s, c.nodeId, c.Route(s))
    ensures old(c.faults) == [] ==>
              && c.faults == []
              && (err == Ledger.None <==> old(Reconcilable(c.nodeId, s, c.Route(s), c.LastGeneration(), wanted)))
  {
    hide Settled, SafeName, Ledger.ValidEngineId, Effect, Step, Local;
    ghost var v := c.View();
    RouteNamesItself(v, OwnerOf(s), floor, now);
    out, err := PlaceNodeRoute(c, s, now, floor);
    if err != Ledger.None {
      return;
    }
    RouteNamesItself(c.View(), OwnerOf(s), floor, now);
    ghost var before := c.View();
    if wanted == Running {
      out, err := ResumeNodeRoute(c, out, now, floor);
      LocalTransitive(v, before, c.View(), s.id);
    } else if wanted == Standby {
      out, err := PrepareNodeRoutePause(c, out, now, floor);
      LocalTransitive(v, before, c.View(), s.id);
      if err != Ledger.None {
        return;
      }
      before := c.View();
      out, err := CompleteNodeRouteStandby(c, out, now, floor);
      LocalTransitive(v, before, c.View(), s.id);
    }
  }

  lemma SettledLater(v: Ledger.View, who: Owner, floor: nat, now: int, later: int)
    requires Settled(v, who, floor, now) && now <= later && later != 0
    ensures Settled(v, who, floor, later)
  {
    hide Ledger.Inv, Ledger.ValidIdentity, Ledger.ValidEngineId, Ledger.Assigned;
  }

  /** A reconciliation of a durable assignment may be cut off anywhere, calls and replies and writes being
      lost and its result forgotten: run again from the same durable assignment, it arrives. */
  method ReconcileAgain(c: Client, s: Sandbox, wanted: Wanted, now: int, later: int)
    returns (out: Sandbox, err: Ledger.Option<Failure>)
    requires Drivable(c, s, s.generation, now) && HasAssignment(s) && s.nodeId == c.nodeId
    requires now <= later && later != 0 && c.LastGeneration() + 2 <= Ledger.MAX_UINT64
    modifies c, c.admin.ledger
    ensures err == Ledger.None && Meets(c.Route(s), wanted) && Agrees(out, s, c.nodeId, c.Route(s))
    ensures Local(old(c.View()), c.View(), s.id)
  {
    hide Settled, SafeName, Ledger.ValidEngineId, Effect, Step, Local;
    ghost var v := c.View();
    out, err := ReconcileNodeRoute(c, s, wanted, now, s.generation);
    ghost var cut := c.View();
    SettledLater(cut, OwnerOf(s), s.generation, now, later);
    RouteNamesItself(cut, OwnerOf(s), s.generation, later);
    c.faults := [];
    out, err := ReconcileNodeRoute(c, s, wanted, later, s.generation);
    LocalTransitive(v, cut, c.View(), s.id);
  }
}
