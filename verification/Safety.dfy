// The invariant of the whole machine: the tables stay sound, every live controller stands where
// its record is, at most one token per operation is live, and release intent is durable before
// any taint is removed. Proved for every event, hence for every run.

module Safety {
  import opened Options
  import opened Int64
  import opened Capacity
  import opened Admission
  import opened Coupling
  import opened AdmissionSound
  import opened Progress
  import opened Protocol

  predicate TokenOk(db: Db, t: Token) {
    HasRow(db, t.op) && t.host == t.op && t.fence <= db.ops[t.op].fence
  }

  // The token's lease has been neither superseded nor given back.
  predicate Live(op: Op, t: Token) {
    op.fence == t.fence && op.lease.Some? && op.lease.value.owner == t.owner
  }

  // What a live controller may rely on about its record at each point.
  predicate Stands(pc: Pc, r: Row) {
    match pc
    case Claimed(_) => true
    case AtLaunch(_, requested) => r.host.state == if requested then Requested else Provisioning
    case Begun(_) => r.host.state.Requested?
    case Launch(_) => r.host.state.Provisioning?
    case Allocated(_, _, _) => r.host.state.Provisioning?
    case AtBooting(_) => r.host.state.Booting?
    case AtRegistering(_) => r.host.state.Registering?
    case Joined(_, _) => r.host.state.Registering?
    case Bound(_) => r.host.state.Registering?
    case Pinning(_, _) => r.host.state.Registering?
    case Delivering(t) => r.host.state.Registering? && PinnedTo(r, t.op, r.host.desired)
    case Enrolled(t) => r.host.state.Registering? && PinnedTo(r, t.op, r.host.desired)
    case AtConverging(_, v) => r.host.state.Converging? && r.host.desired == v
    case Judged(_, v) => r.host.state.Converging? && r.host.desired == v
    case Prepared(t, v) => r.host.state.Converging? && PinnedTo(r, t.op, v) && r.binding.value.released
    case Finalizing(t, v) => r.host.state.Converging? && PinnedTo(r, t.op, v) && r.binding.value.released
    case Lifting(t, v) => r.host.state.Converging? && PinnedTo(r, t.op, v) && r.binding.value.released
    case Lifted(t, v) => r.host.state.Converging? && PinnedTo(r, t.op, v) && r.binding.value.released
    case Failing(_, _) => true
    case Yielding(_) => true
  }

  // The rows an open handoff transaction locked still satisfy what it checked.
  predicate Secured(db: Db, pc: Pc)
    requires HasRow(db, pc.t.op)
  {
    Holding(pc) ==>
      Live(db.ops[pc.t.op], pc.t) && db.ops[pc.t.op].state.Launching? &&
      MemberReady(db, db.ops[pc.t.op].group) && TopologyReady(db, db.ops[pc.t.op].group)
  }

  predicate WorkerOk(db: Db, pc: Pc) {
    TokenOk(db, pc.t) && (Live(db.ops[pc.t.op], pc.t) ==> Stands(pc, RowOf(db, pc.t.op))) && Secured(db, pc)
  }

  predicate Exclusive(workers: map<nat, Pc>) {
    forall j, k :: j in workers && k in workers && j != k && workers[j].t.op == workers[k].t.op ==>
      workers[j].t.fence != workers[k].t.fence
  }

  predicate Workers(w: World) {
    Exclusive(w.workers) && forall k :: k in w.workers ==> WorkerOk(w.db, w.workers[k])
  }

  predicate ReleaseDurable(db: Db, h: Id) {
    h in db.bindings && db.bindings[h].released
  }

  predicate WriteAhead(w: World) {
    forall h :: h in w.inflight + w.lifted ==> ReleaseDurable(w.db, h)
  }

  predicate Safe(w: World) {
    Sound(w.db) && Workers(w) && WriteAhead(w)
  }

  // ---------- Controllers a transaction does not disturb ----------

  predicate SameFor(r: Row, r': Row) {
    r'.op.state == r.op.state && r'.host.state == r.host.state && r'.host.desired == r.host.desired && r'.binding == r.binding
  }

  lemma StandsSame(pc: Pc, r: Row, r': Row)
    requires Stands(pc, r) && SameFor(r, r')
    ensures Stands(pc, r')
  {
  }

  predicate SameSites(db: Db, db': Db, group: string) {
    group in db.groups && group in db'.groups &&
    (MemberReady(db, group) ==> MemberReady(db', group)) && (TopologyReady(db, group) ==> TopologyReady(db', group))
  }

  predicate Undisturbed(db: Db, db': Db, pc: Pc)
    requires HasRow(db, pc.t.op) && HasRow(db', pc.t.op)
  {
    (Live(db'.ops[pc.t.op], pc.t) ==> SameFor(RowOf(db, pc.t.op), RowOf(db', pc.t.op))) &&
    (Holding(pc) ==> db'.ops[pc.t.op] == db.ops[pc.t.op] && SameSites(db, db', db.ops[pc.t.op].group))
  }

  lemma TokenStays(db: Db, db': Db, t: Token)
    requires Linked(db) && TokenOk(db, t) && Progresses(db, db')
    ensures TokenOk(db', t) && (Live(db'.ops[t.op], t) ==> Live(db.ops[t.op], t))
  {
    assert LinkedOp(db, t.op);
    assert Advances(RowOf(db, t.op), RowOf(db', t.op), db.clock);
  }

  lemma UndisturbedStays(db: Db, db': Db, pc: Pc)
    requires Linked(db) && WorkerOk(db, pc) && Progresses(db, db')
    requires HasRow(db', pc.t.op) && Undisturbed(db, db', pc)
    ensures WorkerOk(db', pc)
  {
    hide Stands, Progresses, Linked, SameFor, MemberReady, TopologyReady;
    TokenStays(db, db', pc.t);
    if Live(db'.ops[pc.t.op], pc.t) { StandsSame(pc, RowOf(db, pc.t.op), RowOf(db', pc.t.op)); }
  }

  lemma SitesSame(db: Db, db': Db, group: string)
    requires group in db.groups && GroupsAdvance(db.groups, db'.groups)
    requires db'.members == db.members && db'.zones == db.zones && db'.clusters == db.clusters
    ensures SameSites(db, db', group)
  {
    assert GroupAdvances(db.groups[group], db'.groups[group]);
  }

  lemma ReleaseStays(db: Db, db': Db, h: Id)
    requires Linked(db) && Progresses(db, db') && ReleaseDurable(db, h) && Linked(db')
    ensures ReleaseDurable(db', h)
  {
    LinkedHasRow(db, h);
    assert Advances(RowOf(db, h), RowOf(db', h), db.clock);
    LinkedHasRow(db', h);
  }

  // A transaction that keeps the controllers' map and disturbs no live one keeps the invariant.
  lemma QuietStep(w: World, w': World)
    requires Safe(w) && Sound(w'.db) && Progresses(w.db, w'.db)
    requires w'.workers == w.workers && w'.inflight == w.inflight && w'.lifted == w.lifted
    requires forall k :: k in w.workers ==> HasRow(w'.db, w.workers[k].t.op) && Undisturbed(w.db, w'.db, w.workers[k])
    ensures Safe(w')
  {
    hide Sound, Progresses, Undisturbed, WorkerOk, Linked, ReleaseDurable;
    SoundLinked(w.db);
    SoundLinked(w'.db);
    forall k | k in w'.workers ensures WorkerOk(w'.db, w'.workers[k]) {
      assert WorkerOk(w.db, w.workers[k]);
      WorkerHasRow(w.db, w.workers[k]);
      UndisturbedStays(w.db, w'.db, w.workers[k]);
    }
    forall h | h in w'.inflight + w'.lifted ensures ReleaseDurable(w'.db, h) { ReleaseStays(w.db, w'.db, h); }
  }

  lemma WorkerHasRow(db: Db, pc: Pc)
    requires WorkerOk(db, pc)
    ensures HasRow(db, pc.t.op) && pc.t.host == pc.t.op
  {
  }

  lemma WorkersHaveRows(w: World)
    requires Workers(w)
    ensures forall k :: k in w.workers ==> HasRow(w.db, w.workers[k].t.op)
  {
  }

  lemma HoldingLocks(w: World, k: nat)
    requires k in w.workers
    ensures Holding(w.workers[k]) ==> Locked(w, w.workers[k].t.op)
  {
    if Holding(w.workers[k]) { assert LockedBy(w, k, w.workers[k].t.op); }
  }

  // ---------- Admission and topology ----------

  // Every record either stays as it is, up to its excess mark, or had no lease.
  predicate SparesLeases(db: Db, db': Db) {
    db'.members == db.members && db'.zones == db.zones && db'.clusters == db.clusters &&
    forall o :: o in db.hosts && HasRow(db, o) && db.ops[o].lease.Some? ==>
      HasRow(db', o) && db'.ops[o] == db.ops[o] && SameFor(RowOf(db, o), RowOf(db', o))
  }

  lemma SparingStep(w: World, db': Db)
    requires Safe(w) && Sound(db') && Progresses(w.db, db') && SparesLeases(w.db, db')
    ensures Safe(w.(db := db'))
  {
    hide Sound;
    SoundLinked(w.db);
    forall k | k in w.workers ensures HasRow(db', w.workers[k].t.op) && Undisturbed(w.db, db', w.workers[k]) {
      var pc := w.workers[k];
      assert WorkerOk(w.db, pc);
      assert LinkedOp(w.db, pc.t.op);
      TokenStays(w.db, db', pc.t);
      SitesSame(w.db, db', w.db.ops[pc.t.op].group);
    }
    QuietStep(w, w.(db := db'));
  }

  lemma SparesChain(db: Db, db': Db, db'': Db)
    requires SparesLeases(db, db') && SparesLeases(db', db'') && db.hosts.Keys <= db'.hosts.Keys
    ensures SparesLeases(db, db'')
  {
  }

  lemma RowsSpared(db: Db, db': Db)
    requires Linked(db) && db'.members == db.members && db'.zones == db.zones && db'.clusters == db.clusters
    requires db'.hosts == db.hosts && db'.resv == db.resv && db'.bindings == db.bindings
    requires forall o :: o in db.ops ==> o in db'.ops && db'.ops[o] == db.ops[o]
    ensures SparesLeases(db, db')
  {
  }

  lemma IntentSpares(db: Db, gid: string, g: Group, revision: int)
    requires Linked(db)
    ensures SparesLeases(db, AddIntent(db, gid, g, revision))
  {
    FreshId(db);
  }

  lemma ProgressHosts(db: Db, db': Db)
    requires Progresses(db, db')
    ensures db.hosts.Keys <= db'.hosts.Keys
  {
  }

  lemma CoreLinked(db: Db)
    requires Core(db)
    ensures Linked(db)
  {
  }

  lemma {:induction false} IntentsSpare(db: Db, gid: string, g: Group, revision: int, count: nat)
    requires Core(db) && gid in db.groups && db.groups[gid].pool == g.pool
    ensures SparesLeases(db, AddIntents(db, gid, g, revision, count))
  {
    hide SparesLeases, Core, Linked, Progresses;
    CoreLinked(db);
    if count == 0 {
      RowsSpared(db, db);
    } else {
      var mid := AddIntents(db, gid, g, revision, count - 1);
      IntentsSpare(db, gid, g, revision, count - 1);
      IntentsKeepCore(db, gid, g, revision, count - 1, g.pool);
      IntentsProgress(db, gid, g, revision, count - 1);
      ProgressHosts(db, mid);
      CoreLinked(mid);
      IntentSpares(mid, gid, g, revision);
      SparesChain(db, mid, AddIntents(db, gid, g, revision, count));
    }
  }

  lemma CancelSparesRow(db: Db, gid: string, chosen: set<Id>, o: Id)
    requires Linked(db) && chosen <= Cancellable(db, gid) && o in db.hosts && HasRow(db, o) && db.ops[o].lease.Some?
    ensures HasRow(CancelOps(db, chosen), o) && CancelOps(db, chosen).ops[o] == db.ops[o]
    ensures RowOf(CancelOps(db, chosen), o) == RowOf(db, o)
  {
    CancellableHosts(db, gid);
    CancelRow(db, chosen, o);
    assert o !in chosen;
    hide CancelOps;
    assert RowOf(CancelOps(db, chosen), o).op == db.ops[o];
  }

  lemma CancelSpares(db: Db, gid: string, chosen: set<Id>)
    requires Linked(db) && chosen <= Cancellable(db, gid)
    ensures SparesLeases(db, CancelOps(db, chosen))
  {
    var db' := CancelOps(db, chosen);
    assert db'.members == db.members && db'.zones == db.zones && db'.clusters == db.clusters;
    hide CancelOps, Linked, IsCancellable;
    forall o | o in db.hosts && HasRow(db, o) && db.ops[o].lease.Some?
      ensures HasRow(db', o) && db'.ops[o] == db.ops[o] && SameFor(RowOf(db, o), RowOf(db', o))
    {
      CancelSparesRow(db, gid, chosen, o);
    }
  }

  lemma MarkSpares(db: Db, marks: set<Id>)
    requires Linked(db)
    ensures SparesLeases(db, MarkExcess(db, marks))
  {
    forall o | o in db.hosts && HasRow(db, o) && db.ops[o].lease.Some?
      ensures HasRow(MarkExcess(db, marks), o) && SameFor(RowOf(db, o), RowOf(MarkExcess(db, marks), o))
    {
      MarkRow(db, marks, o);
    }
  }

  lemma PickSpares(db: Db, gid: string, count: int, pick: Pick)
    requires Core(db) && PickOk(db, gid, count, pick)
    ensures SparesLeases(db, CancelWith(db, pick))
  {
    hide SparesLeases, MarkExcess, IsCancellable, IsMarkable;
    CancelSpares(db, gid, pick.cancel);
    CancelKeepsCore(db, gid, pick.cancel);
    MarkSpares(CancelOps(db, pick.cancel), pick.mark);
    assert CancelOps(db, pick.cancel).hosts.Keys == db.hosts.Keys;
    SparesChain(db, CancelOps(db, pick.cancel), CancelWith(db, pick));
  }

  lemma SetTargetSpares(db: Db, req: CapacityRequest, obs: Observed, pick: Pick)
    requires Sound(db) && TypedRequest(req) && (req.group in db.groups ==> PickFits(db, req, pick))
    ensures SparesLeases(db, SetTarget(db, req, obs, pick).0)
  {
    hide SparesLeases, Linked, Coupled, Typed, NodesDistinct, AddIntents, CancelWith, PickOk, Fits, Used;
    if Refusal(db, req, obs).Some? {
      RowsSpared(db, db);
    } else {
      var g := db.groups[req.group];
      var d := Retarget(db, req, g);
      RowsSpared(db, d);
      RetargetKeepsSound(db, req, obs.enabled);
      if Delta(g, req) > 0 {
        IntentsSpare(d, req.group, g, Wrap(g.revision + 1), Delta(g, req));
        SparesChain(db, d, SetTarget(db, req, obs, pick).0);
      } else if Delta(g, req) < 0 {
        PickTransfer(db, d, req.group, -Delta(g, req), pick);
        PickSpares(d, req.group, -Delta(g, req), pick);
        SparesChain(db, d, SetTarget(db, req, obs, pick).0);
      }
    }
  }

  // ---------- Steps of one controller ----------

  // Controller k moves, the others keep their place and are not disturbed.
  lemma ActStep(w: World, w': World, k: nat)
    requires Safe(w) && Sound(w'.db) && Progresses(w.db, w'.db)
    requires w'.workers - {k} == w.workers - {k}
    requires forall j :: j in w.workers && j != k ==> HasRow(w'.db, w.workers[j].t.op) && Undisturbed(w.db, w'.db, w.workers[j])
    requires k in w'.workers ==> WorkerOk(w'.db, w'.workers[k])
    requires k in w'.workers ==> forall j :: j in w.workers && j != k && w.workers[j].t.op == w'.workers[k].t.op ==>
      w.workers[j].t.fence != w'.workers[k].t.fence
    requires forall h :: h in w'.inflight + w'.lifted ==> h in w.inflight + w.lifted || ReleaseDurable(w'.db, h)
    ensures Safe(w')
  {
    hide Sound, Progresses, Undisturbed, WorkerOk, Linked, ReleaseDurable;
    SoundLinked(w.db);
    SoundLinked(w'.db);
    forall j | j in w'.workers ensures WorkerOk(w'.db, w'.workers[j]) {
      if j != k {
        assert j in w.workers - {k} && w'.workers[j] == w.workers[j];
        WorkerHasRow(w.db, w.workers[j]);
        UndisturbedStays(w.db, w'.db, w.workers[j]);
      }
    }
    assert Exclusive(w'.workers) by {
      forall i, j | i in w'.workers && j in w'.workers && i != j && w'.workers[i].t.op == w'.workers[j].t.op
        ensures w'.workers[i].t.fence != w'.workers[j].t.fence
      {
        assert i != k ==> i in w.workers - {k} && w'.workers[i] == w.workers[i];
        assert j != k ==> j in w.workers - {k} && w'.workers[j] == w.workers[j];
      }
    }
    forall h | h in w'.inflight + w'.lifted ensures ReleaseDurable(w'.db, h) {
      if h in w.inflight + w.lifted { ReleaseStays(w.db, w'.db, h); }
    }
  }

  // Moving without touching the tables: the token stays the same.
  lemma MoveStep(w: World, k: nat, pc: Option<Pc>)
    requires Safe(w) && k in w.workers
    requires pc.Some? ==> pc.value.t == w.workers[k].t && WorkerOk(w.db, pc.value)
    ensures Safe(Goto(w, k, pc)) && Progresses(w.db, w.db)
  {
    hide Sound, Progresses, WorkerOk, Linked, ReleaseDurable, Undisturbed;
    SoundLinked(w.db);
    ProgressSame(w.db);
    forall j | j in w.workers ensures HasRow(w.db, w.workers[j].t.op) && Undisturbed(w.db, w.db, w.workers[j]) {
      WorkerHasRow(w.db, w.workers[j]);
      UndisturbedSame(w.db, w.workers[j]);
    }
    ActStep(w, Goto(w, k, pc), k);
  }

  lemma UndisturbedSame(db: Db, pc: Pc)
    requires WorkerOk(db, pc) && Linked(db)
    ensures Undisturbed(db, db, pc)
  {
    assert LinkedOp(db, pc.t.op);
  }

  lemma PutSpares(db: Db, o: Id, r: Row, pc: Pc)
    requires Linked(db) && HasRow(db, o) && SameIdentity(RowOf(db, o), r) && KeepsNode(RowOf(db, o), r)
    requires WorkerOk(db, pc) && (pc.t.op == o ==> !Live(r.op, pc.t) && !Holding(pc))
    ensures HasRow(PutRow(db, o, r), pc.t.op) && Undisturbed(db, PutRow(db, o, r), pc)
  {
    var db' := PutRow(db, o, r);
    assert LinkedOp(db, o) && LinkedOp(db, pc.t.op);
    if pc.t.op == o {
      PutSelf(db, o, r);
    } else {
      PutOther(db, o, r, pc.t.op);
      assert db'.ops[pc.t.op] == db.ops[pc.t.op];
      SitesSame(db, db', db.ops[pc.t.op].group) by { assert GroupsAdvance(db.groups, db'.groups); }
    }
  }

  // A controller whose write is permitted issues it in order.
  lemma IssueInOrder(db: Db, pc: Pc)
    requires Linked(db) && WorkerOk(db, pc) && WriteAt(pc).Some? && Permits(db, pc.t, WriteAt(pc).value)
    ensures Live(db.ops[pc.t.op], pc.t) && InOrder(RowOf(db, pc.t.op), pc.t, WriteAt(pc).value)
  {
    hide Linked, Stands, InOrder, RowPermits, Secured, SiteOf, WriteAt;
    PermitsLive(db, pc.t, WriteAt(pc).value);
    StandsInOrder(pc, RowOf(db, pc.t.op));
  }

  lemma StandsInOrder(pc: Pc, r: Row)
    requires Stands(pc, r) && WriteAt(pc).Some?
    ensures InOrder(r, pc.t, WriteAt(pc).value)
  {
  }

  // Where the controller stands after its write, in terms of the record alone.
  lemma StandsAfter(pc: Pc, r: Row, s: Site)
    requires RowOk(r, pc.t.op) && Stands(pc, r) && WriteAt(pc).Some? && RowPermits(r, pc.t, WriteAt(pc).value, s)
    requires After(pc).Some?
    ensures After(pc).value.t == pc.t && Stands(After(pc).value, Effect(r, pc.t, WriteAt(pc).value, s))
  {
  }

  lemma WriteKeepsFence(r: Row, t: Token, w: Write, s: Site)
    requires RowPermits(r, t, w, s)
    ensures Effect(r, t, w, s).op.fence == r.op.fence == t.fence
  {
  }

  lemma PerformSpares(w: World, k: nat, write: Write, j: nat)
    requires Safe(w) && k in w.workers && j in w.workers && j != k
    requires Permits(w.db, w.workers[k].t, write)
    ensures HasRow(Perform(w.db, w.workers[k].t, write), w.workers[j].t.op)
    ensures Undisturbed(w.db, Perform(w.db, w.workers[k].t, write), w.workers[j])
  {
    hide PoolBound, Typed, NodesDistinct, InOrder;
    var t, pc := w.workers[k].t, w.workers[j];
    var r, s := RowOf(w.db, t.op), SiteOf(w.db, t, write);
    assert LinkedOp(w.db, t.op) && RowOk(r, t.op) && WorkerOk(w.db, pc);
    WriteKeepsFence(r, t, write, s);
    EffectFrame(r, t, write, s);
    if pc.t.op == t.op { assert pc.t.fence != t.fence; }
    hide *;
    PutSpares(w.db, t.op, Effect(r, t, write, s), pc);
  }

  lemma PerformRow(db: Db, t: Token, w: Write)
    requires Sound(db) && Permits(db, t, w)
    ensures HasRow(Perform(db, t, w), t.op) && RowOk(RowOf(db, t.op), t.op)
    ensures RowOf(Perform(db, t, w), t.op) == Effect(RowOf(db, t.op), t, w, SiteOf(db, t, w))
  {
    hide PoolBound, Typed, NodesDistinct, RowOk;
    var r, s := RowOf(db, t.op), SiteOf(db, t, w);
    assert LinkedOp(db, t.op) && LinkedHost(db, t.op) && RowOk(r, t.op);
    EffectFrame(r, t, w, s);
    PutSelf(db, t.op, Effect(r, t, w, s));
  }

  lemma PermitsLive(db: Db, t: Token, w: Write)
    requires Permits(db, t, w)
    ensures HasRow(db, t.op) && Live(db.ops[t.op], t) && RowPermits(RowOf(db, t.op), t, w, SiteOf(db, t, w))
  {
  }

  lemma AfterOk(db: Db, pc: Pc)
    requires Sound(db) && WorkerOk(db, pc) && WriteAt(pc).Some? && Permits(db, pc.t, WriteAt(pc).value) && After(pc).Some?
    requires Progresses(db, Perform(db, pc.t, WriteAt(pc).value))
    ensures WorkerOk(Perform(db, pc.t, WriteAt(pc).value), After(pc).value)
    ensures After(pc).value.t == pc.t
  {
    hide Sound, Linked, Progresses, Perform, Effect, RowOk, Stands, Permits, RowPermits, SiteOf, WriteAt, After, Holding;
    var write := WriteAt(pc).value;
    AfterPlain(pc);
    SoundLinked(db);
    PerformRow(db, pc.t, write);
    TokenStays(db, Perform(db, pc.t, write), pc.t);
    PermitsLive(db, pc.t, write);
    StandsAfter(pc, RowOf(db, pc.t.op), SiteOf(db, pc.t, write));
  }

  lemma AfterPlain(pc: Pc)
    ensures After(pc).Some? ==> After(pc).value.t == pc.t && !Holding(After(pc).value)
  {
  }

  lemma PermittedStep(w: World, k: nat)
    requires Safe(w) && k in w.workers && WriteAt(w.workers[k]).Some? && Permits(w.db, w.workers[k].t, WriteAt(w.workers[k]).value)
    ensures var pc := w.workers[k];
      var w' := Goto(w.(db := Perform(w.db, pc.t, WriteAt(pc).value)), k, After(pc));
      Safe(w') && Progresses(w.db, w'.db)
  {
    hide Sound, Linked, WorkerOk, Progresses, Permits, Perform, Undisturbed, InOrder, ReleaseDurable, WriteAt, After;
    var pc := w.workers[k];
    var write := WriteAt(pc).value;
    SoundLinked(w.db);
    WorkersHaveRows(w);
    IssueInOrder(w.db, pc);
    WriteKeepsSound(w.db, pc.t, write);
    WriteProgresses(w.db, pc.t, write);
    forall j | j in w.workers && j != k
      ensures HasRow(Perform(w.db, pc.t, write), w.workers[j].t.op) && Undisturbed(w.db, Perform(w.db, pc.t, write), w.workers[j])
    {
      PerformSpares(w, k, write, j);
    }
    if After(pc).Some? { AfterOk(w.db, pc); }
    ActStep(w, Goto(w.(db := Perform(w.db, pc.t, write)), k, After(pc)), k);
  }

  lemma IssueStep(w: World, k: nat)
    requires Safe(w)
    ensures Safe(ApplyIssue(w, k)) && Progresses(w.db, ApplyIssue(w, k).db)
  {
    hide Sound, Linked, WorkerOk, Progresses, Permits, Perform, ReleaseDurable;
    SoundLinked(w.db);
    ProgressSame(w.db);
    if k in w.workers && WriteAt(w.workers[k]).Some? && !LockedByOther(w, k, w.workers[k].t.op) {
      var pc := w.workers[k];
      if Permits(w.db, pc.t, WriteAt(pc).value) {
        PermittedStep(w, k);
      } else {
        if Refused(pc).Some? { FreeOk(w.db, pc, Refused(pc).value); }
        MoveStep(w, k, Refused(pc));
      }
    }
  }

  // A place that relies on nothing and holds no locks is always allowed.
  lemma FreeOk(db: Db, pc: Pc, pc': Pc)
    requires WorkerOk(db, pc) && pc'.t == pc.t && (pc'.Failing? || pc'.Yielding?)
    ensures WorkerOk(db, pc')
  {
  }

  lemma RenewSpares(db: Db, pc: Pc, d: int)
    requires Sound(db) && WorkerOk(db, pc) && !Holding(pc) && Permits(db, pc.t, Renew(d))
    ensures HasRow(Perform(db, pc.t, Renew(d)), pc.t.op) && Undisturbed(db, Perform(db, pc.t, Renew(d)), pc)
  {
    hide PoolBound, Typed, NodesDistinct;
    var r, s := RowOf(db, pc.t.op), SiteOf(db, pc.t, Renew(d));
    assert LinkedOp(db, pc.t.op) && RowOk(r, pc.t.op);
    EffectFrame(r, pc.t, Renew(d), s);
    PutSelf(db, pc.t.op, Effect(r, pc.t, Renew(d), s));
  }

  lemma ExtendStep(w: World, k: nat, d: int)
    requires Safe(w)
    ensures Safe(ApplyExtend(w, k, d)) && Progresses(w.db, ApplyExtend(w, k, d).db)
  {
    hide Sound, Linked, WorkerOk, Progresses, Permits, Undisturbed, ReleaseDurable;
    SoundLinked(w.db);
    ProgressSame(w.db);
    if k in w.workers && !Locked(w, w.workers[k].t.op) && Permits(w.db, w.workers[k].t, Renew(d)) {
      var t := w.workers[k].t;
      WorkersHaveRows(w);
      WriteKeepsSound(w.db, t, Renew(d));
      WriteProgresses(w.db, t, Renew(d));
      HoldingLocks(w, k);
      forall j | j in w.workers
        ensures HasRow(Perform(w.db, t, Renew(d)), w.workers[j].t.op) && Undisturbed(w.db, Perform(w.db, t, Renew(d)), w.workers[j])
      {
        if j == k { RenewSpares(w.db, w.workers[k], d); } else { PerformSpares(w, k, Renew(d), j); }
      }
      QuietStep(w, ApplyExtend(w, k, d));
    }
  }

  lemma TakeSpares(w: World, o: Id, owner: string, d: int, j: nat)
    requires Safe(w) && HasRow(w.db, o) && !Locked(w, o) && j in w.workers
    ensures HasRow(Claim(w.db, o, owner, d), w.workers[j].t.op) && Undisturbed(w.db, Claim(w.db, o, owner, d), w.workers[j])
    ensures w.workers[j].t.op == o ==> w.workers[j].t.fence <= w.db.ops[o].fence
  {
    hide PoolBound, Typed, NodesDistinct, RowOk, Stands;
    var pc := w.workers[j];
    assert LinkedOp(w.db, o) && WorkerOk(w.db, pc);
    HoldingLocks(w, j);
    PutSpares(w.db, o, ClaimedRow(RowOf(w.db, o), owner, w.db.clock + d), pc);
  }

  lemma TakenOk(db: Db, o: Id, owner: string, d: int)
    requires Sound(db) && HasRow(db, o)
    ensures WorkerOk(Claim(db, o, owner, d), Claimed(Token(o, db.ops[o].host, owner, db.ops[o].fence + 1)))
  {
    hide PoolBound, Typed, NodesDistinct, RowOk;
    assert LinkedOp(db, o);
    PutSelf(db, o, ClaimedRow(RowOf(db, o), owner, db.clock + d));
  }

  lemma TakeStep(w: World, k: nat, o: Id, owner: string, d: int)
    requires Safe(w)
    ensures Safe(ApplyTake(w, k, o, owner, d)) && Progresses(w.db, ApplyTake(w, k, o, owner, d).db)
  {
    hide Sound, Linked, WorkerOk, Progresses, Undisturbed, Claim, ReleaseDurable, Free, MemberReady, DominatorOf;
    SoundLinked(w.db);
    ProgressSame(w.db);
    var w' := ApplyTake(w, k, o, owner, d);
    if w' != w {
      ClaimKeepsSound(w.db, o, owner, d);
      ClaimProgresses(w.db, o, owner, d);
      TakenOk(w.db, o, owner, d);
      WorkersHaveRows(w);
      forall j | j in w.workers
        ensures HasRow(w'.db, w.workers[j].t.op) && Undisturbed(w.db, w'.db, w.workers[j])
        ensures w.workers[j].t.op == o ==> w.workers[j].t.fence <= w.db.ops[o].fence
      {
        TakeSpares(w, o, owner, d, j);
      }
      ActStep(w, w', k);
    }
  }

  lemma ReadOk(db: Db, t: Token)
    requires Linked(db) && WorkerOk(db, Claimed(t)) && t.host in db.hosts && Dispatch(t, db.hosts[t.host]).Some?
    ensures WorkerOk(db, Dispatch(t, db.hosts[t.host]).value) && Dispatch(t, db.hosts[t.host]).value.t == t
  {
    assert LinkedOp(db, t.op);
  }

  lemma ReturnOk(db: Db, pc: Pc, out: Outcome)
    requires WorkerOk(db, pc) && Returned(pc, out).Some?
    ensures WorkerOk(db, Returned(pc, out).value) && Returned(pc, out).value.t == pc.t
  {
  }

  lemma MovesStep(w: World, e: Event)
    requires Safe(w) && (e.ReadHost? || e.Return? || e.Crash?)
    ensures Safe(Apply(w, e)) && Progresses(w.db, Apply(w, e).db)
  {
    hide Sound, Linked, WorkerOk, Progresses, ReleaseDurable;
    SoundLinked(w.db);
    ProgressSame(w.db);
    match e {
      case ReadHost(k) =>
        if k in w.workers && w.workers[k].Claimed? {
          var t := w.workers[k].t;
          if t.host in w.db.hosts && Dispatch(t, w.db.hosts[t.host]).Some? { ReadOk(w.db, t); }
          MoveStep(w, k, if t.host in w.db.hosts then Dispatch(t, w.db.hosts[t.host]) else None);
        }
      case Return(k, out) =>
        if k in w.workers {
          ReturnOk(w.db, w.workers[k], out);
          MoveStep(w, k, Returned(w.workers[k], out));
        }
      case Crash(k) =>
        if k in w.workers { MoveStep(w, k, None); } else { assert w.workers - {k} == w.workers; }
    }
  }

  lemma OpenOk(db: Db, pc: Pc)
    requires WorkerOk(db, pc) && pc.Prepared?
    requires OpensFinalize(RowOf(db, pc.t.op), pc.t, pc.version, SiteOf(db, pc.t, Finalize))
    ensures WorkerOk(db, Finalizing(pc.t, pc.version))
  {
  }

  lemma OpenStep(w: World, k: nat)
    requires Safe(w)
    ensures Safe(ApplyOpen(w, k)) && Progresses(w.db, ApplyOpen(w, k).db)
  {
    hide Sound, Linked, WorkerOk, Progresses, OpensFinalize, ReleaseDurable;
    SoundLinked(w.db);
    ProgressSame(w.db);
    if k in w.workers && w.workers[k].Prepared? && !Locked(w, w.workers[k].t.op) {
      var pc := w.workers[k];
      WorkerHasRow(w.db, pc);
      if OpensFinalize(RowOf(w.db, pc.t.op), pc.t, pc.version, SiteOf(w.db, pc.t, Finalize)) {
        OpenOk(w.db, pc);
        MoveStep(w, k, Some(Finalizing(pc.t, pc.version)));
      } else {
        FreeOk(w.db, pc, Failing(pc.t, "readiness_handoff"));
        MoveStep(w, k, Some(Failing(pc.t, "readiness_handoff")));
      }
    }
  }

  // A controller inside an open handoff: its release intent is durable and it may lift the taint.
  lemma HandoffOk(db: Db, pc: Pc, pc': Pc)
    requires WorkerOk(db, pc) && Holding(pc) && Holding(pc') && pc'.t == pc.t && pc'.version == pc.version
    ensures WorkerOk(db, pc')
  {
  }

  lemma HandoffDurable(db: Db, pc: Pc)
    requires Linked(db) && WorkerOk(db, pc) && Holding(pc)
    ensures ReleaseDurable(db, pc.t.host)
  {
    assert LinkedOp(db, pc.t.op);
    hide Linked, MemberReady, TopologyReady;
    assert Live(db.ops[pc.t.op], pc.t);
    HeldRow(pc, RowOf(db, pc.t.op));
  }

  lemma HeldRow(pc: Pc, r: Row)
    requires Holding(pc) && Stands(pc, r)
    ensures r.binding.Some? && r.binding.value.released
  {
  }

  lemma HandoffStep(w: World, e: Event)
    requires Safe(w) && (e.Lift? || e.Land? || e.Confirm?)
    ensures Safe(Apply(w, e)) && Progresses(w.db, Apply(w, e).db)
  {
    hide Sound, Linked, WorkerOk, Progresses, ReleaseDurable;
    SoundLinked(w.db);
    ProgressSame(w.db);
    match e {
      case Lift(k) =>
        if k in w.workers && w.workers[k].Finalizing? {
          var pc := w.workers[k];
          HandoffOk(w.db, pc, Lifting(pc.t, pc.version));
          HandoffDurable(w.db, pc);
          MoveStep(w, k, Some(Lifting(pc.t, pc.version)));
        }
      case Confirm(k) =>
        if k in w.workers && w.workers[k].Lifting? {
          var pc := w.workers[k];
          HandoffOk(w.db, pc, Lifted(pc.t, pc.version));
          MoveStep(w, k, Some(Lifted(pc.t, pc.version)));
        }
      case Land(h) =>
    }
  }

  // ---------- Steps of everybody else ----------

  function Rewired(db: Db, e: Event): Db
    requires e.Topology?
  {
    db.(members := e.members, zones := e.zones, clusters := e.clusters, dominators := e.dominators)
  }

  lemma TopologySpares(w: World, e: Event, k: nat)
    requires Sound(w.db) && Workers(w) && e.Topology? && TopologyFree(w, e) && k in w.workers
    ensures HasRow(w.db, w.workers[k].t.op) && HasRow(Rewired(w.db, e), w.workers[k].t.op)
    ensures Undisturbed(w.db, Rewired(w.db, e), w.workers[k])
  {
    hide PoolBound, Coupled, Typed, NodesDistinct, Stands;
    var pc := w.workers[k];
    assert WorkerOk(w.db, pc) && LinkedOp(w.db, pc.t.op);
    hide Linked, WorkerOk;
    if Holding(pc) { assert SameSite(w.db, e, w.db.ops[pc.t.op].group); }
  }

  lemma TopologyStep(w: World, e: Event)
    requires Safe(w) && e.Topology?
    ensures Safe(Apply(w, e)) && Progresses(w.db, Apply(w, e).db)
  {
    hide Sound, Linked, WorkerOk, Progresses, Undisturbed, ReleaseDurable;
    SoundLinked(w.db);
    ProgressSame(w.db);
    if TopologyFree(w, e) {
      var w' := Apply(w, e);
      assert w'.db == Rewired(w.db, e);
      EnvironmentKeepsSound(w.db, w'.db);
      FrameProgresses(w.db, w'.db) by { assert GroupsAdvance(w.db.groups, w'.db.groups) && Recorded(w.db, w'.db); }
      WorkersHaveRows(w);
      forall k | k in w.workers ensures HasRow(w'.db, w.workers[k].t.op) && Undisturbed(w.db, w'.db, w.workers[k]) {
        TopologySpares(w, e, k);
      }
      QuietStep(w, w');
    }
  }

  // Transactions on topology, groups and removals touch no provisioning record.
  lemma CatalogStep(w: World, db': Db)
    requires Safe(w) && Sound(db') && Progresses(w.db, db')
    requires db'.members == w.db.members && db'.zones == w.db.zones && db'.clusters == w.db.clusters
    requires db'.hosts == w.db.hosts && db'.resv == w.db.resv && db'.bindings == w.db.bindings
    requires forall o :: o in w.db.ops ==> o in db'.ops && db'.ops[o] == w.db.ops[o]
    ensures Safe(w.(db := db'))
  {
    hide Sound, Linked, Progresses, Workers, WriteAhead, SparesLeases;
    SoundLinked(w.db);
    RowsSpared(w.db, db');
    SparingStep(w, db');
  }

  predicate OpsKept(db: Db, db': Db) {
    db'.members == db.members && db'.zones == db.zones && db'.clusters == db.clusters &&
    db'.hosts == db.hosts && db'.resv == db.resv && db'.bindings == db.bindings && db.next <= db'.next &&
    forall o :: o in db.ops ==> o in db'.ops && db'.ops[o] == db.ops[o]
  }

  lemma {:induction false} RemovalsKeepOps(db: Db, g: Group, req: RemovalRequest, revision: int, count: nat)
    requires count <= |req.nodes| && forall o :: o in db.ops ==> o < db.next
    ensures OpsKept(db, AddRemovals(db, g, req, revision, count))
  {
    if count > 0 { RemovalsKeepOps(db, g, req, revision, count - 1); }
  }

  lemma RemoveManyStep(w: World, cluster: string, req: RemovalRequest)
    requires Safe(w)
    ensures Safe(ApplyRemoveMany(w, cluster, req)) && Progresses(w.db, ApplyRemoveMany(w, cluster, req).db)
  {
    hide Sound, Linked, Progresses, Workers, WriteAhead, WellFormedNodes, NodesError, AddRemovals, IsReplay;
    SoundLinked(w.db);
    ProgressSame(w.db);
    OpsBelowNext(w.db);
    var w' := ApplyRemoveMany(w, cluster, req);
    if w' != w {
      RemoveBatchKeepsSound(w.db, cluster, req);
      RemoveBatchProgresses(w.db, cluster, req);
      var g := w.db.groups[req.group];
      RemovalsKeepOps(Lower(w.db, req.group, |req.nodes|, Wrap(g.revision + 1)), g, req, Wrap(g.revision + 1), |req.nodes|);
      CatalogStep(w, w'.db);
      LogIsOutside(w, w');
    }
  }

  lemma RemoveNamedStep(w: World, cluster: string, expected: int, r: NamedRemoval)
    requires Safe(w)
    ensures Safe(ApplyRemoveNamed(w, cluster, expected, r)) && Progresses(w.db, ApplyRemoveNamed(w, cluster, expected, r).db)
  {
    hide Sound, Linked, Progresses, Workers, WriteAhead, UnderRemoval;
    SoundLinked(w.db);
    ProgressSame(w.db);
    OpsBelowNext(w.db);
    var w' := ApplyRemoveNamed(w, cluster, expected, r);
    if w' != w {
      RemoveOneKeepsSound(w.db, cluster, expected, r);
      RemoveOneProgresses(w.db, cluster, expected, r);
      CatalogStep(w, w'.db);
      LogIsOutside(w, w');
    }
  }

  lemma LogIsOutside(w: World, w': World)
    requires Safe(w.(db := w'.db)) && w' == w.(db := w'.db, log := w'.log)
    ensures Safe(w')
  {
  }

  lemma AdmitStep(w: World, e: Event)
    requires Safe(w) && e.Admit?
    ensures Safe(Apply(w, e)) && Progresses(w.db, Apply(w, e).db)
  {
    hide Sound, Linked, Progresses, Workers, WriteAhead, SparesLeases, Refusal, SetTarget, PickFits, PickOk;
    SoundLinked(w.db);
    ProgressSame(w.db);
    if Admits(w.db, e.req, e.obs, e.pick) {
      PickFitsGroup(w.db, e.req, e.pick);
      SetTargetKeepsSound(w.db, e.req, e.obs, e.pick);
      SetTargetProgresses(w.db, e.req, e.obs, e.pick);
      SetTargetSpares(w.db, e.req, e.obs, e.pick);
      SparingStep(w, SetTarget(w.db, e.req, e.obs, e.pick).0);
      LogIsOutside(w, Apply(w, e));
    }
  }

  lemma PickFitsGroup(db: Db, req: CapacityRequest, pick: Pick)
    requires PickFits(db, req, pick)
    ensures req.group in db.groups
  {
  }

  // A change of the catalog: pools and groups may be added and a template view may change.
  predicate CatalogChange(db: Db, db': Db) {
    db'.ops == db.ops && db'.hosts == db.hosts && db'.resv == db.resv && db'.bindings == db.bindings &&
    db'.requests == db.requests && db'.removals == db.removals && db'.members == db.members && db'.zones == db.zones &&
    db'.clusters == db.clusters && db.clock <= db'.clock &&
    (forall p :: p in db.pools ==> p in db'.pools && db'.pools[p] == db.pools[p]) &&
    (forall g :: g in db.groups ==> g in db'.groups && db'.groups[g] == db.groups[g].(template := db'.groups[g].template))
  }

  lemma CatalogProgresses(db: Db, db': Db)
    requires Linked(db) && CatalogChange(db, db')
    ensures Progresses(db, db')
  {
    hide Linked;
    assert Recorded(db, db') && GroupsAdvance(db.groups, db'.groups);
    FrameProgresses(db, db');
  }

  lemma CatalogSafe(w: World, db': Db)
    requires Safe(w) && Sound(db') && CatalogChange(w.db, db')
    ensures Safe(w.(db := db')) && Progresses(w.db, db')
  {
    hide Sound, Linked, Progresses, Workers, WriteAhead;
    SoundLinked(w.db);
    CatalogProgresses(w.db, db');
    CatalogStep(w, db');
  }

  lemma PoolChange(db: Db, id: string, limit: Resources)
    ensures CatalogChange(db, CreatePool(db, id, limit))
  {
    if CreatePool(db, id, limit) == db { return; }
  }

  lemma GroupChange(db: Db, id: string, g: Group)
    ensures CatalogChange(db, CreateGroup(db, id, g))
  {
    if CreateGroup(db, id, g) == db { return; }
  }

  lemma TemplateChange(db: Db, id: string, from: string, to: string)
    ensures CatalogChange(db, UpdateTemplate(db, id, from, to))
  {
    if UpdateTemplate(db, id, from, to) == db { return; }
  }

  lemma CatalogEvents(w: World, e: Event)
    requires Safe(w) && (e.Tick? || e.NewPool? || e.NewGroup? || e.NewTemplate?)
    ensures Safe(Apply(w, e)) && Progresses(w.db, Apply(w, e).db)
  {
    hide Safe, Sound, Progresses, CatalogChange, CreatePool, CreateGroup, UpdateTemplate;
    SafeSound(w);
    match e {
      case Tick(d) =>
        EnvironmentKeepsSound(w.db, Apply(w, e).db);
        TickChange(w.db, d);
      case NewPool(id, limit) =>
        PoolKeepsSound(w.db, id, limit);
        PoolChange(w.db, id, limit);
      case NewGroup(id, g) =>
        GroupKeepsSound(w.db, id, g);
        GroupChange(w.db, id, g);
      case NewTemplate(id, from, to) =>
        TemplateKeepsSound(w.db, id, from, to);
        TemplateChange(w.db, id, from, to);
    }
    CatalogSafe(w, Apply(w, e).db);
  }

  lemma TickChange(db: Db, d: nat)
    ensures CatalogChange(db, db.(clock := db.clock + d))
  {
  }

  // ---------- Every event, every run ----------

  lemma StepSafe(w: World, e: Event)
    requires Safe(w)
    ensures Safe(Apply(w, e)) && Progresses(w.db, Apply(w, e).db)
  {
    hide Safe, Progresses;
    match e {
      case Tick(_) => CatalogEvents(w, e);
      case NewPool(_, _) => CatalogEvents(w, e);
      case NewGroup(_, _) => CatalogEvents(w, e);
      case NewTemplate(_, _, _) => CatalogEvents(w, e);
      case Topology(_, _, _, _) => TopologyStep(w, e);
      case Admit(_, _, _) => AdmitStep(w, e);
      case RemoveMany(cluster, req) => RemoveManyStep(w, cluster, req);
      case RemoveNamed(cluster, expected, r) => RemoveNamedStep(w, cluster, expected, r);
      case Take(k, o, owner, d) => TakeStep(w, k, o, owner, d);
      case Issue(k) => IssueStep(w, k);
      case Open(k) => OpenStep(w, k);
      case Extend(k, d) => ExtendStep(w, k, d);
      case Lift(_) => HandoffStep(w, e);
      case Land(_) => HandoffStep(w, e);
      case Confirm(_) => HandoffStep(w, e);
      case ReadHost(_) => MovesStep(w, e);
      case Return(_, _) => MovesStep(w, e);
      case Crash(_) => MovesStep(w, e);
    }
  }

  lemma StartSafe()
    ensures Safe(START)
  {
  }

  lemma {:induction false} RunSafe(w: World, es: seq<Event>)
    requires Safe(w)
    ensures Safe(Run(w, es)) && Progresses(w.db, Run(w, es).db)
  {
    hide Safe, Progresses, Apply, Linked;
    if es == [] {
      SafeLinked(w);
      ProgressSame(w.db);
    } else {
      var mid := Run(w, es[..|es| - 1]);
      RunSafe(w, es[..|es| - 1]);
      StepSafe(mid, es[|es| - 1]);
      ProgressChain(w.db, mid.db, Run(w, es).db);
    }
  }

  lemma SafeLinked(w: World)
    requires Safe(w)
    ensures Linked(w.db)
  {
  }

  lemma {:induction false} RunSplit(w: World, es: seq<Event>, more: seq<Event>)
    ensures Run(w, es + more) == Run(Run(w, es), more)
  {
    hide Apply;
    if more == [] {
      assert es + more == es;
    } else {
      assert (es + more)[..|es + more| - 1] == es + more[..|more| - 1];
      RunSplit(w, es, more[..|more| - 1]);
    }
  }

  lemma SafeSound(w: World)
    requires Safe(w)
    ensures Sound(w.db)
  {
  }

  // A controller's own moves touch no table.
  lemma MovesKeepTables(w: World, e: Event)
    requires e.ReadHost? || e.Return? || e.Open? || e.Lift? || e.Land? || e.Confirm? || e.Crash?
    ensures Apply(w, e).db == w.db && Apply(w, e).log == w.log
  {
    hide OpensFinalize, Locked, Dispatch, Returned;
  }

  lemma ClaimableRow(db: Db, o: Id, owner: string)
    requires Claimable(db, o, owner)
    ensures HasRow(db, o) && Free(db.ops[o], db.clock)
  {
  }
}
