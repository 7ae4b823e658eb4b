// What holds in every run of the control plane, stated about reachable states.

module Guarantees {
  import Int64
  import opened Options
  import opened Capacity
  import opened Admission
  import opened Coupling
  import opened AdmissionSound
  import opened Progress
  import opened Protocol
  import opened Safety

  lemma Reachable(es: seq<Event>)
    ensures Safe(Run(START, es))
  {
    StartSafe();
    RunSafe(START, es);
  }

  lemma Later(es: seq<Event>, more: seq<Event>)
    ensures Run(START, es + more) == Run(Run(START, es), more)
    ensures Safe(Run(START, es)) && Safe(Run(START, es + more))
    ensures Progresses(Run(START, es).db, Run(START, es + more).db)
  {
    hide Safe, Progresses;
    Reachable(es);
    RunSplit(START, es, more);
    RunSafe(Run(START, es), more);
  }

  // ---------- Coupling ----------

  // In every reachable state a provision operation, its host and its reservation agree.
  lemma LifecyclesCoincide(es: seq<Event>, o: Id)
    requires o in Run(START, es).db.ops && Run(START, es).db.ops[o].kind.Provision?
    ensures var db := Run(START, es).db;
      HasRow(db, o) && db.ops[o].host == o && db.hosts[o].op == o &&
      var r := RowOf(db, o);
      (r.op.state.Cancelled? <==> r.host.state.Terminated?) &&
      (r.resv.state.Released? <==> r.host.state.Terminated?) &&
      (r.resv.state.Committed? <==> r.host.provider != "") &&
      (r.resv.state.Committed? <==> PastLaunch(r.host.state)) &&
      (r.host.state.Ready? <==> r.op.state.Succeeded?) &&
      (Handed(r.host.state) ==> r.op.state.Launching?)
  {
    hide Run, Stands, WorkerOk, PoolBound, Typed, NodesDistinct;
    Reachable(es);
    var db := Run(START, es).db;
    assert LinkedOp(db, o) && LinkedHost(db, o) && RowOk(RowOf(db, o), o);
  }

  // A committed credit stays committed, and a released one stays released, for the rest of the run.
  lemma CreditsSettle(es: seq<Event>, more: seq<Event>, h: Id)
    requires h in Run(START, es).db.resv
    ensures h in Run(START, es + more).db.resv
    ensures var c, c' := Run(START, es).db.resv[h], Run(START, es + more).db.resv[h];
      (c.state.Committed? ==> c'.state.Committed?) && (c.state.Released? ==> c'.state.Released?)
  {
    hide Run, Stands, WorkerOk, PoolBound, Typed, NodesDistinct, Coupled;
    Later(es, more);
    var db, db' := Run(START, es).db, Run(START, es + more).db;
    LinkedHasRow(db, h);
    LinkedHasRow(db', h);
    assert Advances(RowOf(db, h), RowOf(db', h), db.clock);
  }

  // ---------- Pool limits ----------

  // The unreleased reservations of all groups sharing a pool never exceed its limits, and the
  // limits are the ones the pool was created with.
  lemma PoolsNeverExceeded(es: seq<Event>, more: seq<Event>, p: string)
    requires p in Run(START, es).db.pools
    ensures p in Run(START, es + more).db.pools
    ensures Run(START, es + more).db.pools[p].limit == Run(START, es).db.pools[p].limit
    ensures AtMost(Used(Run(START, es + more).db, p), Run(START, es).db.pools[p].limit)
  {
    hide Run, Stands, WorkerOk, Core, RowsAdvance, GroupsAdvance;
    Later(es, more);
  }

  // In every reachable state the int64 arithmetic of an admission that reaches the pool lock is
  // exact: the delta, the next revision, limit minus used and, past the quotient guard, the scaled
  // resources; so checkReservations admits exactly what fits.
  lemma AdmissionArithmeticIsExact(es: seq<Event>, req: CapacityRequest, enabled: bool)
    requires TypedRequest(req) && Early(Run(START, es).db, req, enabled).None?
    ensures var db := Run(START, es).db;
      var g := db.groups[req.group];
      var used, limit := Used(db, g.pool), db.pools[g.pool].limit;
      Delta(g, req) == req.desired - g.target && Int64.Wrap(g.revision + 1) == g.revision + 1 &&
      Int64.Wrap(limit.vcpu - used.vcpu) == limit.vcpu - used.vcpu &&
      Int64.Wrap(limit.memory - used.memory) == limit.memory - used.memory &&
      Int64.Wrap(limit.nodes - used.nodes) == limit.nodes - used.nodes &&
      (0 < Delta(g, req) <= Int64.MAX / g.vcpu ==> Int64.Wrap(Delta(g, req) * g.vcpu) == Delta(g, req) * g.vcpu) &&
      (0 < Delta(g, req) <= Int64.MAX / g.memory ==> Int64.Wrap(Delta(g, req) * g.memory) == Delta(g, req) * g.memory) &&
      (Delta(g, req) > 0 ==>
        (Fits(g, limit, used, Delta(g, req)) <==> AtMost(Plus(used, Scale(g, g.pool, Delta(g, req))), limit)))
  {
    hide Run, Workers, WriteAhead, Linked, Coupled, NodesDistinct, Used, Fits, Delta, Int64.Wrap, Plus, Scale;
    Reachable(es);
    NoOverflow(Run(START, es).db, req, enabled);
    var g := Run(START, es).db.groups[req.group];
    ScaledExactly(Delta(g, req), g.vcpu);
    ScaledExactly(Delta(g, req), g.memory);
  }

  lemma ScaledExactly(nodes: int, per: Positive)
    ensures 0 < nodes <= Int64.MAX / per ==> Int64.Wrap(nodes * per) == nodes * per
  {
    if 0 < nodes {
      Int64.QuotientGuard(nodes, per);
      Int64.MulMono(0, nodes, per);
    }
  }

  // ---------- Fencing ----------

  // Once a token has been overtaken by a higher fence, given back, cancelled or left to expire,
  // no write that presents it takes effect in any later state, whoever presents it.
  lemma StaleTokensAreDead(es: seq<Event>, more: seq<Event>, t: Token, w: Write)
    requires HasRow(Run(START, es).db, t.op) && t.fence <= Run(START, es).db.ops[t.op].fence
    requires !Holds(Run(START, es).db.ops[t.op], t, Run(START, es).db.clock)
    ensures !Permits(Run(START, es + more).db, t, w)
    ensures Perform(Run(START, es + more).db, t, w) == Run(START, es + more).db
  {
    hide Run, Workers, WriteAhead, PoolBound, Typed, NodesDistinct, Coupled, GroupsAdvance, Recorded, RowPermits;
    Later(es, more);
    var db, db' := Run(START, es).db, Run(START, es + more).db;
    assert LinkedOp(db, t.op);
    StaleRow(RowOf(db, t.op), RowOf(db', t.op), t, w, db.clock, SiteOf(db', t, w));
  }

  lemma StaleRow(r: Row, r': Row, t: Token, w: Write, now: int, s: Site)
    requires Advances(r, r', now) && now <= s.now && t.fence <= r.op.fence && !Holds(r.op, t, now)
    ensures !RowPermits(r', t, w, s)
  {
  }

  // A fence that a later claim or a cancellation has passed is below the current one for good.
  lemma FencesOnlyRise(es: seq<Event>, more: seq<Event>, o: Id)
    requires HasRow(Run(START, es).db, o)
    ensures HasRow(Run(START, es + more).db, o)
    ensures Run(START, es).db.ops[o].fence <= Run(START, es + more).db.ops[o].fence
    ensures SameIntent(Run(START, es).db.ops[o], Run(START, es + more).db.ops[o])
  {
    hide Run, Stands, WorkerOk, PoolBound, Typed, NodesDistinct, Coupled, GroupsAdvance, Recorded;
    Later(es, more);
    var db, db' := Run(START, es).db, Run(START, es + more).db;
    assert LinkedOp(db, o);
    assert Advances(RowOf(db, o), RowOf(db', o), db.clock);
  }

  // At most one controller holds a live token for an operation, even when two controllers run
  // under the same owner identity.
  lemma OneLiveToken(es: seq<Event>, j: nat, k: nat)
    requires var w := Run(START, es);
      j in w.workers && k in w.workers && w.workers[j].t.op == w.workers[k].t.op &&
      w.workers[j].t.op in w.db.ops &&
      Live(w.db.ops[w.workers[j].t.op], w.workers[j].t) && Live(w.db.ops[w.workers[k].t.op], w.workers[k].t)
    ensures j == k
  {
    hide Run, Stands, WorkerOk, Sound, WriteAhead;
    Reachable(es);
    assert Exclusive(Run(START, es).workers);
  }

  // A claim always produces a fence nobody has held, so it kills every earlier token.
  lemma ClaimSupersedes(es: seq<Event>, k: nat, o: Id, owner: string, d: int, j: nat)
    requires var w := Run(START, es);
      Apply(w, Take(k, o, owner, d)) != w && j in w.workers && w.workers[j].t.op == o
    ensures var w' := Apply(Run(START, es), Take(k, o, owner, d));
      k in w'.workers && j in w'.workers && o in w'.db.ops &&
      Live(w'.db.ops[o], w'.workers[k].t) && !Live(w'.db.ops[o], w'.workers[j].t)
  {
    hide Run, Stands, PoolBound, Typed, NodesDistinct, Coupled, WriteAhead;
    Reachable(es);
    var w := Run(START, es);
    assert WorkerOk(w.db, w.workers[j]) && LinkedOp(w.db, o);
  }

  // ---------- Write-ahead release ----------

  // If Crane has removed, or has even asked to remove, a node's provisioning taint, then
  // release_started is durable, and stays so.
  lemma ReleaseIntentFirst(es: seq<Event>, more: seq<Event>, h: Id)
    requires h in Run(START, es).inflight || h in Run(START, es).lifted
    ensures ReleaseDurable(Run(START, es + more).db, h)
    ensures h in Run(START, es + more).db.hosts
    ensures Run(START, es + more).db.hosts[h].state.Converging? || Run(START, es + more).db.hosts[h].state.Ready?
  {
    hide Run, Stands, WorkerOk, PoolBound, Typed, NodesDistinct, Progresses;
    Later(es, more);
    var w, w' := Run(START, es), Run(START, es + more);
    assert h in w.inflight + w.lifted;
    ReleaseStays(w.db, w'.db, h);
    ReleasedHost(w'.db, h);
  }

  lemma ReleasedHost(db: Db, h: Id)
    requires Sound(db)
    ensures ReleaseDurable(db, h) ==> h in db.hosts && (db.hosts[h].state.Converging? || db.hosts[h].state.Ready?)
  {
    hide PoolBound, Typed, NodesDistinct;
    if ReleaseDurable(db, h) {
      LinkedHasRow(db, h);
      assert RowOk(RowOf(db, h), h);
    }
  }

  // So a live controller that enrolls a node, and therefore demands the taint, is never looking
  // at a node whose taint Crane lifted.
  lemma EnrollmentSeesQuarantine(es: seq<Event>, k: nat)
    requires var w := Run(START, es);
      k in w.workers && (w.workers[k].AtRegistering? || w.workers[k].Joined?) &&
      w.workers[k].t.op in w.db.ops && Live(w.db.ops[w.workers[k].t.op], w.workers[k].t)
    ensures Run(START, es).workers[k].t.host !in Run(START, es).inflight + Run(START, es).lifted
  {
    hide Run, Sound;
    Reachable(es);
    var w := Run(START, es);
    assert WorkerOk(w.db, w.workers[k]);
    HostOfOp(w.db, w.workers[k].t.op);
    ReleasedHost(w.db, w.workers[k].t.host);
  }

  // ---------- READY gate ----------

  // A READY host has a provider identity, one Node bound under its own operation, a pinned
  // revision-1 expected state equal to its desired and observed version, and durable release intent.
  lemma ReadyMeansProven(es: seq<Event>, h: Id)
    requires var db := Run(START, es).db; h in db.hosts && db.hosts[h].state.Ready?
    ensures var db := Run(START, es).db;
      db.hosts[h].provider != "" && h in db.bindings && db.bindings[h].op == h && db.bindings[h].node.name == h &&
      db.bindings[h].released && db.bindings[h].expected.Some? &&
      db.bindings[h].expected.value.revision == 1 && db.bindings[h].expected.value.version == db.hosts[h].desired &&
      db.hosts[h].observed == db.hosts[h].desired &&
      h in db.ops && db.ops[h].state.Succeeded?
  {
    hide Run, Stands, WorkerOk, PoolBound, Typed, NodesDistinct;
    Reachable(es);
    var db := Run(START, es).db;
    LinkedHasRow(db, h);
    assert RowOk(RowOf(db, h), h);
  }

  // A host becomes READY only in the step that commits an open handoff, by the controller whose
  // token is live, while the membership is ready and approved and the zone and cluster are ready.
  lemma ReadyOnlyByHandoff(es: seq<Event>, e: Event, h: Id)
    requires var db, db' := Run(START, es).db, Apply(Run(START, es), e).db;
      h in db.hosts && !db.hosts[h].state.Ready? && h in db'.hosts && db'.hosts[h].state.Ready?
    ensures e.Issue? && e.worker in Run(START, es).workers
    ensures var w := Run(START, es);
      var pc := w.workers[e.worker];
      pc.Lifted? && pc.t.op == h && h in w.db.ops && Live(w.db.ops[h], pc.t) &&
      w.db.ops[h].group in w.db.groups &&
      var g := w.db.groups[w.db.ops[h].group];
      Place(g.cluster, g.zone) in w.db.members && w.db.members[Place(g.cluster, g.zone)] == Membership(true, true) &&
      g.zone in w.db.zones && w.db.zones[g.zone].ready && w.db.zones[g.zone].enabled &&
      g.cluster in w.db.clusters && w.db.clusters[g.cluster] &&
      w.db.hosts[h].state.Converging? && w.db.hosts[h].desired == pc.version && h in w.lifted
  {
    hide Run;
    Reachable(es);
    LiftedFirst(es);
    var w := Run(START, es);
    StepToReady(w, e, h);
    hide Apply, Sound, WriteAhead, Stands;
    LiftedFacts(w.db, w.workers[e.worker]);
    HostOfOp(w.db, h);
  }

  lemma LiftedFacts(db: Db, pc: Pc)
    requires WorkerOk(db, pc) && pc.Lifted?
    ensures HasRow(db, pc.t.op) && pc.t.host == pc.t.op && Live(db.ops[pc.t.op], pc.t)
    ensures db.ops[pc.t.op].group in db.groups
    ensures var g := db.groups[db.ops[pc.t.op].group];
      Place(g.cluster, g.zone) in db.members && db.members[Place(g.cluster, g.zone)] == Membership(true, true) &&
      g.zone in db.zones && db.zones[g.zone].ready && db.zones[g.zone].enabled &&
      g.cluster in db.clusters && db.clusters[g.cluster]
    ensures var h := RowOf(db, pc.t.op).host; h.state.Converging? && h.desired == pc.version
  {
  }

  lemma HostOfOp(db: Db, o: Id)
    requires Sound(db) && HasRow(db, o)
    ensures db.ops[o].host == o
  {
    hide Coupled, PoolBound, Typed, NodesDistinct;
    assert LinkedOp(db, o);
  }

  predicate OnlyConfirmedLift(w: World) {
    forall k :: k in w.workers && w.workers[k].Lifted? ==> w.workers[k].t.op in w.lifted && w.workers[k].t.host == w.workers[k].t.op
  }

  // A controller commits a handoff only after Kubernetes confirmed that the taint is gone.
  lemma {:induction false} LiftedFirst(es: seq<Event>)
    ensures OnlyConfirmedLift(Run(START, es))
  {
    if es != [] {
      var w, e := Run(START, es[..|es| - 1]), es[|es| - 1];
      LiftedFirst(es[..|es| - 1]);
      Reachable(es[..|es| - 1]);
      hide Run, Sound, WriteAhead, Stands;
      ConfirmedStep(w, e);
    }
  }

  lemma ConfirmedStep(w: World, e: Event)
    requires Workers(w) && OnlyConfirmedLift(w)
    ensures OnlyConfirmedLift(Apply(w, e))
  {
    hide Workers, Apply;
    WorkersOwnHosts(w);
    match e {
      case Issue(k) => ConfirmedIssue(w, k); EventIs(w, e);
      case Take(k, o, owner, d) => ConfirmedTake(w, k, o, owner, d); EventIs(w, e);
      case Open(k) => ConfirmedMoves(w, k); EventIs(w, e);
      case ReadHost(k) => ConfirmedMoves(w, k); EventIs(w, e);
      case Lift(_) => ConfirmedRest(w, e);
      case Land(_) => ConfirmedRest(w, e);
      case Confirm(_) => ConfirmedRest(w, e);
      case Return(_, _) => ConfirmedRest(w, e);
      case Crash(_) => ConfirmedRest(w, e);
      case _ => TransactionWorkers(w, e);
    }
  }

  lemma EventIs(w: World, e: Event)
    ensures e.Issue? ==> Apply(w, e) == ApplyIssue(w, e.worker)
    ensures e.Take? ==> Apply(w, e) == ApplyTake(w, e.worker, e.op, e.owner, e.duration)
    ensures e.Open? ==> Apply(w, e) == ApplyOpen(w, e.worker)
    ensures e.ReadHost? ==> Apply(w, e) == ApplyReadHost(w, e.worker)
  {
    hide ApplyIssue, ApplyTake, ApplyOpen, ApplyReadHost;
  }

  lemma ConfirmedRest(w: World, e: Event)
    requires OnlyConfirmedLift(w) && (e.Lift? || e.Land? || e.Confirm? || e.Return? || e.Crash?)
    requires forall k :: k in w.workers ==> w.workers[k].t.host == w.workers[k].t.op
    ensures OnlyConfirmedLift(Apply(w, e))
  {
    hide Returned;
    if e.Return? && e.worker in w.workers { ConfirmedReturn(w.workers[e.worker], e.outcome); }
  }

  lemma TransactionWorkers(w: World, e: Event)
    requires e.Admit? || e.RemoveMany? || e.RemoveNamed? || e.Extend? || e.Tick? || e.Topology? || e.NewPool? || e.NewGroup? || e.NewTemplate?
    ensures Apply(w, e).workers == w.workers && Apply(w, e).lifted == w.lifted
  {
    hide SetTarget, RemoveBatch, RemoveOne, Perform, Admits, Locked, CreatePool, CreateGroup, UpdateTemplate, TopologyFree;
  }

  lemma ConfirmedIssue(w: World, k: nat)
    requires OnlyConfirmedLift(w)
    ensures OnlyConfirmedLift(ApplyIssue(w, k))
  {
    hide Perform, Permits, LockedByOther;
    if k in w.workers {
      assert After(w.workers[k]).Some? ==> !After(w.workers[k]).value.Lifted?;
      assert Refused(w.workers[k]).Some? ==> !Refused(w.workers[k]).value.Lifted?;
    }
  }

  lemma ConfirmedTake(w: World, k: nat, o: Id, owner: string, d: int)
    requires OnlyConfirmedLift(w)
    ensures OnlyConfirmedLift(ApplyTake(w, k, o, owner, d))
  {
    hide Claim, Free, MemberReady, DominatorOf, Locked;
  }

  lemma ConfirmedMoves(w: World, k: nat)
    requires OnlyConfirmedLift(w)
    ensures OnlyConfirmedLift(ApplyOpen(w, k)) && OnlyConfirmedLift(ApplyReadHost(w, k))
  {
    hide OpensFinalize, Locked;
  }

  lemma ConfirmedReturn(pc: Pc, out: Outcome)
    ensures Returned(pc, out).Some? && (Returned(pc, out).value.Lifted? ==> Returned(pc, out).value == pc)
  {
  }

  lemma WorkersOwnHosts(w: World)
    requires Workers(w)
    ensures forall k :: k in w.workers ==> w.workers[k].t.host == w.workers[k].t.op
  {
    forall k | k in w.workers ensures w.workers[k].t.host == w.workers[k].t.op { assert WorkerOk(w.db, w.workers[k]); }
  }

  // Any other event leaves a host's state alone or terminates it.
  lemma StepToReady(w: World, e: Event, h: Id)
    requires Safe(w)
    requires h in w.db.hosts && !w.db.hosts[h].state.Ready?
    requires h in Apply(w, e).db.hosts && Apply(w, e).db.hosts[h].state.Ready?
    ensures e.Issue? && e.worker in w.workers && w.workers[e.worker].Lifted? && w.workers[e.worker].t.op == h
  {
    hide Safe, ApplyIssue, ApplyTake, ApplyOpen, ApplyReadHost, ApplyLift, ApplyConfirm, ApplyExtend, Returned, TopologyFree,
      ApplyAdmit, ApplyRemoveMany, ApplyRemoveNamed, CreatePool, CreateGroup, UpdateTemplate;
    match e {
      case Issue(k) => IssueHost(w, k, h);
      case Admit(req, obs, pick) => AdmitHost(w, req, obs, pick, h);
      case RemoveMany(_, _) => RemovalHosts(w, e);
      case RemoveNamed(_, _, _) => RemovalHosts(w, e);
      case NewPool(_, _) => CatalogHosts(w, e);
      case NewGroup(_, _) => CatalogHosts(w, e);
      case NewTemplate(_, _, _) => CatalogHosts(w, e);
      case Take(_, _, _, _) => LeaseHosts(w, e);
      case Extend(_, _) => LeaseHosts(w, e);
      case ReadHost(_) => MovesKeepTables(w, e);
      case Open(_) => MovesKeepTables(w, e);
      case Lift(_) => MovesKeepTables(w, e);
      case Confirm(_) => MovesKeepTables(w, e);
      case _ =>
    }
  }

  lemma CatalogHosts(w: World, e: Event)
    requires e.NewPool? || e.NewGroup? || e.NewTemplate?
    ensures Apply(w, e).db.hosts == w.db.hosts
  {
  }

  lemma LeaseHosts(w: World, e: Event)
    requires e.Take? || e.Extend?
    ensures Apply(w, e).db.hosts == w.db.hosts
  {
    hide Permits, Claimable, Locked;
    match e {
      case Extend(k, d) =>
        if k in w.workers && Permits(w.db, w.workers[k].t, Renew(d)) { PermitsLive(w.db, w.workers[k].t, Renew(d)); }
      case Take(k, o, owner, d) =>
        if Claimable(w.db, o, owner) { ClaimableRow(w.db, o, owner); }
    }
  }

  lemma RemovalHosts(w: World, e: Event)
    requires e.RemoveMany? || e.RemoveNamed?
    ensures Apply(w, e).db.hosts == w.db.hosts
  {
    hide NodesError, WellFormedNodes, IsReplay, AddRemovals, UnderRemoval;
    match e {
      case RemoveMany(cluster, req) =>
        if Apply(w, e).db != w.db {
          var g := w.db.groups[req.group];
          RemovalsFrame(Lower(w.db, req.group, |req.nodes|, Int64.Wrap(g.revision + 1)), g, req, Int64.Wrap(g.revision + 1), |req.nodes|);
        }
      case RemoveNamed(_, _, _) =>
    }
  }

  lemma CancelHost(db: Db, pick: Pick, h: Id)
    requires pick.cancel <= db.ops.Keys && h in db.hosts
    ensures var d := CancelWith(db, pick); h in d.hosts && (d.hosts[h].state == db.hosts[h].state || d.hosts[h].state.Terminated?)
  {
  }

  lemma AdmitHost(w: World, req: CapacityRequest, obs: Observed, pick: Pick, h: Id)
    requires Safe(w) && h in w.db.hosts
    ensures var db' := ApplyAdmit(w, req, obs, pick).db;
      h in db'.hosts && (db'.hosts[h].state == w.db.hosts[h].state || db'.hosts[h].state.Terminated?)
  {
    hide Workers, WriteAhead, Coupled, PoolBound, Typed, NodesDistinct, PickOk, CancelWith, AddIntents, Refusal;
    hide Linked;
    OpsBelowNext(w.db);
    HostsBelowNext(w.db);
    if Admits(w.db, req, obs, pick) {
      var g := w.db.groups[req.group];
      var d := Retarget(w.db, req, g);
      if Delta(g, req) > 0 { IntentsHold(d, req.group, g, Int64.Wrap(g.revision + 1), Delta(g, req)); }
      CancelHost(d, pick, h);
    }
  }

  lemma IssueHost(w: World, k: nat, h: Id)
    requires Safe(w) && h in w.db.hosts && !w.db.hosts[h].state.Ready?
    requires h in ApplyIssue(w, k).db.hosts && ApplyIssue(w, k).db.hosts[h].state.Ready?
    ensures k in w.workers && w.workers[k].Lifted? && w.workers[k].t.op == h
  {
    hide Sound, WriteAhead, Workers, Permits;
    assert k in w.workers && WriteAt(w.workers[k]).Some? && Permits(w.db, w.workers[k].t, WriteAt(w.workers[k]).value);
    var t, write := w.workers[k].t, WriteAt(w.workers[k]).value;
    PermitsLive(w.db, t, write);
    HostOfOp(w.db, t.op);
    assert w.db.ops[t.op].host == h;
  }

  // The bound Node and the first pinned expected state are never replaced.
  lemma FirstEvidenceWins(es: seq<Event>, more: seq<Event>, h: Id)
    requires h in Run(START, es).db.bindings
    ensures h in Run(START, es + more).db.bindings
    ensures var b, b' := Run(START, es).db.bindings[h], Run(START, es + more).db.bindings[h];
      b'.op == b.op && b'.node == b.node && (b.expected.Some? ==> b'.expected == b.expected)
  {
    hide Run, Stands, WorkerOk, PoolBound, Typed, NodesDistinct, Coupled, GroupsAdvance, Recorded;
    Later(es, more);
    var db, db' := Run(START, es).db, Run(START, es + more).db;
    LinkedHasRow(db, h);
    LinkedHasRow(db', h);
    assert Advances(RowOf(db, h), RowOf(db', h), db.clock);
  }
}
