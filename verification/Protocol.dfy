// The whole control plane as one machine: admission transactions, any number of provisioning
// controllers (internal/capacity/provision_worker.go) executing one store call at a time,
// leases that run out, crashes anywhere, and Kubernetes updates that land late.
// A run is a sequence of events; an event that cannot happen leaves the world unchanged.

module Protocol {
  import Int64
  import opened Options
  import opened Capacity
  import opened Admission

  // Where a controller stands inside RunOnce/advance, with what it remembers.
  datatype Pc =
    | Claimed(t: Token)
    | AtLaunch(t: Token, requested: bool)
    | Begun(t: Token)
    | Launch(t: Token)
    | Allocated(t: Token, provider: string, node: string)
    | AtBooting(t: Token)
    | AtRegistering(t: Token)
    | Joined(t: Token, identity: NodeIdentity)
    | Bound(t: Token)
    | Pinning(t: Token, pin: Expected)
    | Delivering(t: Token)
    | Enrolled(t: Token)
    | AtConverging(t: Token, version: string)
    | Judged(t: Token, version: string)
    | Prepared(t: Token, version: string)
    | Finalizing(t: Token, version: string)
    | Lifting(t: Token, version: string)
    | Lifted(t: Token, version: string)
    | Failing(t: Token, category: string)
    | Yielding(t: Token)

  // One committed change of a group's target.
  datatype Cause = Admitted(cancelled: nat, marked: nat) | Removed
  datatype Change = Change(group: string, revision: int, before: int, after: int, cause: Cause)

  datatype World = World(
    db: Db,
    workers: map<nat, Pc>,
    inflight: set<Id>,   // hosts for which a taint-removing Node update was sent
    lifted: set<Id>,     // hosts whose provisioning taint Crane has removed
    log: seq<Change>)

  const START: World := World(EMPTY, map[], {}, {}, [])

  // What an external call returned to the controller that made it.
  datatype Outcome =
    | Launched(provider: string, node: string)
    | JoinedAs(identity: NodeIdentity)
    | Resolved(pin: Expected)
    | Delivered
    | Readiness(ready: bool)
    | Error

  datatype Event =
    | Tick(elapsed: nat)
    | Topology(members: map<Place, Membership>, zones: map<string, Zone>, clusters: map<string, bool>, dominators: map<string, string>)
    | NewPool(pool: string, limit: Resources)
    | NewGroup(group: string, policy: Group)
    | NewTemplate(target: string, from: string, to: string)
    | Admit(req: CapacityRequest, obs: Observed, pick: Pick)
    | RemoveMany(principal: string, batch: RemovalRequest)
    | RemoveNamed(caller: string, expected: int, named: NamedRemoval)
    | Take(worker: nat, op: Id, owner: string, duration: int)
    | ReadHost(worker: nat)
    | Return(worker: nat, outcome: Outcome)
    | Issue(worker: nat)
    | Open(worker: nat)
    | Lift(worker: nat)
    | Land(host: Id)
    | Confirm(worker: nat)
    | Extend(worker: nat, lease: int)
    | Crash(worker: nat)

  // ---------- A controller's own transitions ----------

  // The store write the controller issues next, if its next action is one.
  function WriteAt(pc: Pc): Option<Write> {
    match pc
    case AtLaunch(_, _) => Some(BeginLaunch)
    case Begun(_) => Some(SetState(Requested, Provisioning))
    case Allocated(_, p, n) => Some(RecordLaunch(p, n))
    case AtBooting(_) => Some(SetState(Booting, Registering))
    case Joined(_, n) => Some(BindNode(n))
    case Pinning(_, e) => Some(PinExpected(e))
    case Enrolled(_) => Some(SetState(Registering, Converging))
    case Judged(_, v) => Some(PrepareRelease(v))
    case Lifted(_, _) => Some(Finalize)
    case Failing(_, c) => Some(RecordFailure(c))
    case Yielding(_) => Some(ReleaseLease)
    case _ => None
  }

  // Where it stands after that write succeeded; None when RunOnce returns.
  function After(pc: Pc): Option<Pc> {
    match pc
    case AtLaunch(t, requested) => Some(if requested then Begun(t) else Launch(t))
    case Begun(t) => Some(Launch(t))
    case Allocated(t, _, _) => Some(Yielding(t))
    case AtBooting(t) => Some(AtRegistering(t))
    case Joined(t, _) => Some(Bound(t))
    case Pinning(t, _) => Some(Delivering(t))
    case Enrolled(t) => Some(Yielding(t))
    case Judged(t, v) => Some(Prepared(t, v))
    case Failing(t, _) => Some(Yielding(t))
    case _ => None
  }

  // Where it stands after the write was refused: inside the executor's enrollment and inside
  // the handoff an error is retryable, elsewhere RunOnce returns it.
  function Refused(pc: Pc): Option<Pc> {
    match pc
    case Joined(t, _) => Some(Failing(t, "host_enrollment"))
    case Pinning(t, _) => Some(Failing(t, "host_enrollment"))
    case Lifted(t, _) => Some(Failing(t, "readiness_handoff"))
    case _ => None
  }

  // advance switches on the host state it reads.
  function Dispatch(t: Token, h: Host): Option<Pc> {
    match h.state
    case Requested => Some(AtLaunch(t, true))
    case Provisioning => Some(AtLaunch(t, false))
    case Booting => Some(AtBooting(t))
    case Registering => Some(AtRegistering(t))
    case Converging => Some(AtConverging(t, h.desired))
    case _ => None
  }

  function Returned(pc: Pc, out: Outcome): Option<Pc> {
    match (pc, out)
    case (Launch(t), Launched(p, n)) => Some(Allocated(t, p, n))
    case (Launch(t), Error) => Some(Failing(t, "provider_launch"))
    case (AtRegistering(t), JoinedAs(n)) => Some(Joined(t, n))
    case (AtRegistering(t), Error) => Some(Failing(t, "host_enrollment"))
    case (Bound(t), Resolved(e)) => Some(Pinning(t, e))
    case (Bound(t), Error) => Some(Failing(t, "host_enrollment"))
    case (Delivering(t), Delivered) => Some(Enrolled(t))
    case (Delivering(t), Error) => Some(Failing(t, "host_enrollment"))
    case (AtConverging(t, v), Readiness(ready)) => Some(if ready then Judged(t, v) else Yielding(t))
    case (AtConverging(t, v), Error) => Some(Failing(t, "readiness_check"))
    case (Finalizing(t, v), Error) => Some(Failing(t, "readiness_handoff"))
    case (Lifting(t, v), Error) => Some(Failing(t, "readiness_handoff"))
    case _ => Some(pc)
  }

  // ---------- Row locks held by an open handoff transaction ----------

  predicate Holding(pc: Pc) {
    pc.Finalizing? || pc.Lifting? || pc.Lifted?
  }

  predicate LockedBy(w: World, k: nat, o: Id) {
    k in w.workers && Holding(w.workers[k]) && w.workers[k].t.op == o
  }

  predicate Locked(w: World, o: Id) {
    exists k :: k in w.workers && LockedBy(w, k, o)
  }

  predicate LockedByOther(w: World, me: nat, o: Id) {
    exists k :: k in w.workers && k != me && LockedBy(w, k, o)
  }

  // The membership, zone and cluster rows of a group.
  predicate SameSite(db: Db, e: Event, group: string)
    requires e.Topology?
  {
    group in db.groups ==>
      var g := db.groups[group];
      var p := Place(g.cluster, g.zone);
      (p in e.members) == (p in db.members) && (p in db.members ==> e.members[p] == db.members[p]) &&
      (g.zone in e.zones) == (g.zone in db.zones) && (g.zone in db.zones ==> e.zones[g.zone] == db.zones[g.zone]) &&
      (g.cluster in e.clusters) == (g.cluster in db.clusters) &&
      (g.cluster in db.clusters ==> e.clusters[g.cluster] == db.clusters[g.cluster])
  }

  predicate TopologyFree(w: World, e: Event)
    requires e.Topology?
  {
    forall k :: k in w.workers && Holding(w.workers[k]) && w.workers[k].t.op in w.db.ops ==>
      SameSite(w.db, e, w.db.ops[w.workers[k].t.op].group)
  }

  // ---------- Steps ----------

  function Goto(w: World, k: nat, pc: Option<Pc>): World {
    w.(workers := if pc.Some? then w.workers[k := pc.value] else w.workers - {k})
  }

  function ApplyTake(w: World, k: nat, o: Id, owner: string, duration: int): World {
    if k in w.workers || !Claimable(w.db, o, owner) || Locked(w, o) || !(MIN_LEASE <= duration <= MAX_LEASE) then w
    else
      var db := Claim(w.db, o, owner, duration);
      w.(db := db, workers := w.workers[k := Claimed(Token(o, w.db.ops[o].host, owner, w.db.ops[o].fence + 1))])
  }

  function ApplyIssue(w: World, k: nat): World {
    if k !in w.workers || WriteAt(w.workers[k]).None? then w
    else
      var pc := w.workers[k];
      if LockedByOther(w, k, pc.t.op) then w
      else if Permits(w.db, pc.t, WriteAt(pc).value) then
        Goto(w.(db := Perform(w.db, pc.t, WriteAt(pc).value)), k, After(pc))
      else Goto(w, k, Refused(pc))
  }

  function ApplyOpen(w: World, k: nat): World {
    if k !in w.workers || !w.workers[k].Prepared? || Locked(w, w.workers[k].t.op) then w
    else
      var pc := w.workers[k];
      if HasRow(w.db, pc.t.op) && OpensFinalize(RowOf(w.db, pc.t.op), pc.t, pc.version, SiteOf(w.db, pc.t, Finalize))
      then Goto(w, k, Some(Finalizing(pc.t, pc.version)))
      else Goto(w, k, Some(Failing(pc.t, "readiness_handoff")))
  }

  function ApplyLift(w: World, k: nat): World {
    if k !in w.workers || !w.workers[k].Finalizing? then w
    else
      var pc := w.workers[k];
      Goto(w, k, Some(Lifting(pc.t, pc.version))).(inflight := w.inflight + {pc.t.host})
  }

  function ApplyConfirm(w: World, k: nat): World {
    if k !in w.workers || !w.workers[k].Lifting? || w.workers[k].t.host !in w.lifted then w
    else Goto(w, k, Some(Lifted(w.workers[k].t, w.workers[k].version)))
  }

  // withLease's renewing goroutine uses a connection of its own, so it waits for row locks
  // even when its own controller holds them.
  function ApplyExtend(w: World, k: nat, lease: int): World {
    if k !in w.workers || Locked(w, w.workers[k].t.op) then w
    else w.(db := Perform(w.db, w.workers[k].t, Renew(lease)))
  }

  function ApplyReadHost(w: World, k: nat): World {
    if k !in w.workers || !w.workers[k].Claimed? then w
    else
      var t := w.workers[k].t;
      Goto(w, k, if t.host in w.db.hosts then Dispatch(t, w.db.hosts[t.host]) else None)
  }

  // A committed SetTarget that was not a replay.
  predicate Admits(db: Db, req: CapacityRequest, obs: Observed, pick: Pick) {
    TypedRequest(req) && PickFits(db, req, pick) && Refusal(db, req, obs).None?
  }

  function ApplyAdmit(w: World, req: CapacityRequest, obs: Observed, pick: Pick): World {
    if !Admits(w.db, req, obs, pick) then w
    else
      var g := w.db.groups[req.group];
      var lowered := Delta(g, req) < 0;
      w.(db := SetTarget(w.db, req, obs, pick).0,
         log := w.log + [Change(req.group, Int64.Wrap(g.revision + 1), g.target, req.desired,
                                Admitted(if lowered then |pick.cancel| else 0, if lowered then |pick.mark| else 0))])
  }

  function ApplyRemoveMany(w: World, cluster: string, req: RemovalRequest): World {
    if |req.nodes| > Int64.MAX || RemoveBatch(w.db, cluster, req).0 == w.db then w
    else
      var g := w.db.groups[req.group];
      w.(db := RemoveBatch(w.db, cluster, req).0,
         log := w.log + [Change(req.group, Int64.Wrap(g.revision + 1), g.target, g.target - |req.nodes|, Removed)])
  }

  function ApplyRemoveNamed(w: World, cluster: string, expected: int, r: NamedRemoval): World {
    if RemoveOne(w.db, cluster, expected, r).1.Some? then w
    else
      var g := w.db.groups[r.group];
      var d := w.(db := RemoveOne(w.db, cluster, expected, r).0);
      if r.preserve then d
      else d.(log := w.log + [Change(r.group, Int64.Wrap(g.revision + 1), g.target, g.target - 1, Removed)])
  }

  function Apply(w: World, e: Event): World {
    match e
    case Tick(d) => w.(db := w.db.(clock := w.db.clock + d))
    case Topology(m, z, c, d) =>
      if TopologyFree(w, e) then w.(db := w.db.(members := m, zones := z, clusters := c, dominators := d)) else w
    case NewPool(id, limit) => w.(db := CreatePool(w.db, id, limit))
    case NewGroup(id, g) => w.(db := CreateGroup(w.db, id, g))
    case NewTemplate(id, from, to) => w.(db := UpdateTemplate(w.db, id, from, to))
    case Admit(req, obs, pick) => ApplyAdmit(w, req, obs, pick)
    case RemoveMany(cluster, req) => ApplyRemoveMany(w, cluster, req)
    case RemoveNamed(cluster, expected, r) => ApplyRemoveNamed(w, cluster, expected, r)
    case Take(k, o, owner, d) => ApplyTake(w, k, o, owner, d)
    case ReadHost(k) => ApplyReadHost(w, k)
    case Return(k, out) => if k in w.workers then Goto(w, k, Returned(w.workers[k], out)) else w
    case Issue(k) => ApplyIssue(w, k)
    case Open(k) => ApplyOpen(w, k)
    case Lift(k) => ApplyLift(w, k)
    case Land(h) => if h in w.inflight then w.(lifted := w.lifted + {h}) else w
    case Confirm(k) => ApplyConfirm(w, k)
    case Extend(k, d) => ApplyExtend(w, k, d)
    case Crash(k) => Goto(w, k, None)
  }

  function Run(w: World, es: seq<Event>): World {
    if es == [] then w else Apply(Run(w, es[..|es| - 1]), es[|es| - 1])
  }
}
