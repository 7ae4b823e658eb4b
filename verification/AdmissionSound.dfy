// Every admission transaction keeps the tables sound, and none of its int64 operations
// overflows on sound tables.

module AdmissionSound {
  import opened Options
  import opened Int64
  import opened Counting
  import opened Selection
  import opened Capacity
  import opened Admission
  import opened Coupling

  // ---------- Replacing group rows ----------

  predicate SameGroup(g: Group, g': Group) {
    g' == g.(target := g'.target, revision := g'.revision, template := g'.template)
  }

  // Tables whose operations, hosts, reservations, bindings and removals are untouched and
  // whose groups stay in place keep their links and coupling.
  lemma FrameKeepsRows(db: Db, db': Db)
    requires Linked(db) && Coupled(db)
    requires db'.ops == db.ops && db'.hosts == db.hosts && db'.resv == db.resv && db'.bindings == db.bindings
    requires db'.removals == db.removals && db.groups.Keys <= db'.groups.Keys && db.next <= db'.next
    ensures Linked(db') && Coupled(db')
  {
    hide RowOk;
    LinksTransfer(db, db');
    forall h | h in db'.hosts ensures LinkedHost(db', h) && RowOk(RowOf(db', h), h) {
      LinkedHasRow(db, h);
      assert RowOf(db', h) == RowOf(db, h);
    }
  }

  // Changing only targets, revisions and templates of existing groups keeps the tables sound.
  lemma GroupsKeepSound(db: Db, db': Db)
    requires Sound(db)
    requires db' == db.(groups := db'.groups, requests := db'.requests) && db'.groups.Keys == db.groups.Keys
    requires forall g :: g in db.groups ==> SameGroup(db.groups[g], db'.groups[g]) && TypedGroup(db'.groups[g])
    ensures Sound(db')
  {
    FrameKeepsRows(db, db');
    hide Linked, Coupled;
    forall p | p in db'.pools ensures AtMost(Used(db', p), db'.pools[p].limit) {
      CreditsSame(db, db', p);
    }
  }

  // ---------- provisionIntent ----------

  lemma IntentRowOk(gid: string, g: Group, id: Id, revision: int)
    ensures RowOk(NewRow(gid, g, id, revision), id)
  {
  }

  lemma FreshId(db: Db)
    requires Linked(db)
    ensures db.next !in db.ops && db.next !in db.hosts && db.next !in db.resv && db.next !in db.bindings && db.next !in db.removals
  {
  }

  lemma IntentKeepsLinks(db: Db, gid: string, g: Group, revision: int)
    requires Linked(db) && gid in db.groups
    ensures Linked(AddIntent(db, gid, g, revision))
  {
    var db' := AddIntent(db, gid, g, revision);
    FreshId(db);
    forall o | o in db'.ops ensures LinkedOp(db', o) { if o in db.ops { assert LinkedOp(db, o); } }
    forall h | h in db'.hosts ensures LinkedHost(db', h) { if h in db.hosts { assert LinkedHost(db, h); } }
    forall i | i in db'.removals ensures LinkedRemoval(db', i) { assert LinkedRemoval(db, i); }
  }

  lemma IntentKeepsCore(db: Db, gid: string, g: Group, revision: int)
    requires Core(db) && gid in db.groups
    ensures Core(AddIntent(db, gid, g, revision))
  {
    hide RowOk, Typed, NodesDistinct;
    var db' := AddIntent(db, gid, g, revision);
    FreshId(db);
    IntentKeepsLinks(db, gid, g, revision);
    forall h | h in db'.hosts ensures LinkedHost(db', h) && RowOk(RowOf(db', h), h) {
      if h in db.hosts {
        assert LinkedHost(db, h) && RowOf(db', h) == RowOf(db, h);
      } else {
        IntentRowOk(gid, g, db.next, revision);
        assert RowOf(db', h) == NewRow(gid, g, db.next, revision);
      }
    }
  }

  function Plus(a: Resources, b: Resources): Resources {
    Resources(a.vcpu + b.vcpu, a.memory + b.memory, a.nodes + b.nodes)
  }

  function Scale(g: Group, pool: string, count: nat): Resources {
    if g.pool == pool then Resources(count * g.vcpu, count * g.memory, count) else NOTHING
  }

  // An added intent is charged to the group's own pool and to no other.
  lemma IntentCharges(db: Db, gid: string, g: Group, revision: int, pool: string)
    requires Linked(db) && gid in db.groups && db.groups[gid].pool == g.pool
    ensures Used(AddIntent(db, gid, g, revision), pool) == Plus(Used(db, pool), Scale(g, pool, 1))
  {
    var db' := AddIntent(db, gid, g, revision);
    FreshId(db);
    hide Linked;
    forall h: nat | h < db.next ensures Credits(db', pool, h) == Credits(db, pool, h) { }
    SumSame(VcpuOf(db, pool), VcpuOf(db', pool), db.next);
    SumSame(MemoryOf(db, pool), MemoryOf(db', pool), db.next);
    SumSame(NodesOf(db, pool), NodesOf(db', pool), db.next);
    assert Credits(db', pool, db.next) == Scale(g, pool, 1);
  }

  predicate OnlyIntentsAdded(db: Db, db': Db) {
    db' == db.(next := db'.next, ops := db'.ops, hosts := db'.hosts, resv := db'.resv)
  }

  lemma {:induction false} IntentsKeepCore(db: Db, gid: string, g: Group, revision: int, count: nat, pool: string)
    requires Core(db) && gid in db.groups && db.groups[gid].pool == g.pool
    ensures var db' := AddIntents(db, gid, g, revision, count);
            Core(db') && OnlyIntentsAdded(db, db') && db'.next == db.next + count &&
            Used(db', pool) == Plus(Used(db, pool), Scale(g, pool, count))
  {
    hide Linked, Coupled, Typed, NodesDistinct, Used;
    if count > 0 {
      IntentsKeepCore(db, gid, g, revision, count - 1, pool);
      var mid := AddIntents(db, gid, g, revision, count - 1);
      IntentKeepsCore(mid, gid, g, revision);
      IntentCharges(mid, gid, g, revision, pool);
      assert count * g.vcpu == (count - 1) * g.vcpu + g.vcpu;
      assert count * g.memory == (count - 1) * g.memory + g.memory;
    }
  }

  // ---------- cancelPending ----------

  function CancelledRow(r: Row): Row {
    Row(CancelledOp(r.op), r.host.(state := Terminated), r.resv.(state := Released), r.binding)
  }

  predicate RowCancellable(r: Row) {
    r.op.state.Pending? && r.op.lease.None? && (r.host.state.Requested? || r.host.state.Provisioning?)
  }

  lemma CancelKeepsRow(r: Row, o: Id)
    requires RowOk(r, o) && RowCancellable(r)
    ensures RowOk(CancelledRow(r), o)
  {
  }

  lemma HostsAreOps(db: Db, chosen: set<Id>)
    requires Linked(db) && chosen <= db.hosts.Keys
    ensures chosen <= db.ops.Keys && HostsOf(db, chosen) == chosen
  {
    forall o | o in chosen ensures o in db.ops && db.ops[o].host == o { assert LinkedHost(db, o); }
  }

  lemma CancellableHosts(db: Db, gid: string)
    requires Linked(db)
    ensures Cancellable(db, gid) <= db.hosts.Keys
    ensures forall o :: o in Cancellable(db, gid) ==> HasRow(db, o) && RowCancellable(RowOf(db, o)) && db.hosts[o].group == gid
  {
    forall o | o in Cancellable(db, gid) ensures o in db.hosts && HasRow(db, o) && RowCancellable(RowOf(db, o)) && db.hosts[o].group == gid {
      assert LinkedOp(db, o);
      assert LinkedHost(db, o);
    }
  }

  lemma CancelKeepsLinks(db: Db, chosen: set<Id>)
    requires Linked(db) && chosen <= db.hosts.Keys && chosen <= db.ops.Keys
    ensures Linked(CancelOps(db, chosen))
  {
    hide LinkedOp, LinkedHost, LinkedRemoval;
    LinksTransfer(db, CancelOps(db, chosen));
  }

  lemma CancelRow(db: Db, chosen: set<Id>, h: Id)
    requires Linked(db) && chosen <= db.hosts.Keys && chosen <= db.ops.Keys && h in db.hosts
    ensures HasRow(db, h) && HasRow(CancelOps(db, chosen), h)
    ensures RowOf(CancelOps(db, chosen), h) == if h in chosen then CancelledRow(RowOf(db, h)) else RowOf(db, h)
  {
    HostsAreOps(db, chosen);
    LinkedHasRow(db, h);
  }

  lemma CancelKeepsCore(db: Db, gid: string, chosen: set<Id>)
    requires Core(db) && chosen <= Cancellable(db, gid)
    ensures Core(CancelOps(db, chosen))
  {
    hide Typed, NodesDistinct, RowOk;
    var db' := CancelOps(db, chosen);
    CancellableHosts(db, gid);
    CancelKeepsLinks(db, chosen);
    forall h | h in db'.hosts ensures LinkedHost(db', h) && RowOk(RowOf(db', h), h) {
      LinkedHasRow(db', h);
      CancelRow(db, chosen, h);
      if h in chosen { CancelKeepsRow(RowOf(db, h), h); }
    }
  }

  // Cancelling only gives credits back.
  lemma CancelReleases(db: Db, chosen: set<Id>, pool: string)
    requires chosen <= db.ops.Keys
    ensures AtMost(Used(CancelOps(db, chosen), pool), Used(db, pool))
  {
    var db' := CancelOps(db, chosen);
    forall h: nat | h < db.next ensures AtMost(Credits(db', pool, h), Credits(db, pool, h)) { }
    SumLess(VcpuOf(db', pool), VcpuOf(db, pool), db.next);
    SumLess(MemoryOf(db', pool), MemoryOf(db, pool), db.next);
    SumLess(NodesOf(db', pool), NodesOf(db, pool), db.next);
  }

  lemma MarkKeepsRow(r: Row, r': Row, o: Id)
    requires RowOk(r, o) && (r' == r || r' == r.(host := r.host.(excess := true)))
    ensures RowOk(r', o)
  {
  }

  lemma MarkRow(db: Db, marks: set<Id>, h: Id)
    requires Linked(db) && h in db.hosts
    ensures HasRow(db, h) && HasRow(MarkExcess(db, marks), h)
    ensures RowOf(MarkExcess(db, marks), h) == if h in marks then RowOf(db, h).(host := db.hosts[h].(excess := true)) else RowOf(db, h)
  {
    LinkedHasRow(db, h);
  }

  lemma MarkKeepsCore(db: Db, marks: set<Id>)
    requires Core(db)
    ensures Core(MarkExcess(db, marks))
  {
    hide Typed, NodesDistinct, RowOk;
    var db' := MarkExcess(db, marks);
    LinksTransfer(db, db');
    forall h | h in db'.hosts ensures LinkedHost(db', h) && RowOk(RowOf(db', h), h) {
      LinkedHasRow(db', h);
      MarkRow(db, marks, h);
      MarkKeepsRow(RowOf(db, h), RowOf(db', h), h);
    }
  }

  lemma CancelKeepsSound(db: Db, gid: string, chosen: set<Id>)
    requires Sound(db) && chosen <= Cancellable(db, gid)
    ensures Sound(CancelOps(db, chosen))
  {
    CancelKeepsCore(db, gid, chosen);
    hide Core, Used;
    forall p | p in db.pools ensures AtMost(Used(CancelOps(db, chosen), p), db.pools[p].limit) {
      CancelReleases(db, chosen, p);
    }
  }

  lemma MarkKeepsSound(db: Db, marks: set<Id>)
    requires Sound(db)
    ensures Sound(MarkExcess(db, marks))
  {
    MarkKeepsCore(db, marks);
    hide Core, Used;
    forall p | p in db.pools ensures AtMost(Used(MarkExcess(db, marks), p), db.pools[p].limit) {
      MarkCharges(db, marks, p);
    }
  }

  lemma PickKeepsSound(db: Db, gid: string, count: int, pick: Pick)
    requires Sound(db) && PickOk(db, gid, count, pick)
    ensures Sound(CancelWith(db, pick))
  {
    hide Sound, CancelOps, MarkExcess, IsCancellable, IsMarkable;
    CancelKeepsSound(db, gid, pick.cancel);
    MarkKeepsSound(CancelOps(db, pick.cancel), pick.mark);
  }

  lemma MarkCharges(db: Db, marks: set<Id>, pool: string)
    ensures Used(MarkExcess(db, marks), pool) == Used(db, pool)
  {
    CreditsSame(db, MarkExcess(db, marks), pool);
  }

  // ---------- SetTarget ----------

  lemma UsedNonNegative(db: Db, pool: string)
    ensures AtMost(NOTHING, Used(db, pool))
  {
    var zero := (h: nat) => 0;
    SumZero(zero, db.next);
    SumLess(zero, VcpuOf(db, pool), db.next);
    SumLess(zero, MemoryOf(db, pool), db.next);
    SumLess(zero, NodesOf(db, pool), db.next);
  }

  // checkReservations admits exactly the requests that fit in unbounded arithmetic.
  lemma FitsExactly(g: Group, limit: Resources, used: Resources, nodes: int)
    requires TypedGroup(g) && TypedPool(Pool(limit, true)) && AtMost(NOTHING, used) && AtMost(used, limit)
    requires 0 <= nodes <= MAX
    ensures nodes <= MAX / g.vcpu ==> InRange(nodes * g.vcpu)
    ensures nodes <= MAX / g.memory ==> InRange(nodes * g.memory)
    ensures Fits(g, limit, used, nodes) <==>
      AtMost(Plus(used, Resources(nodes * g.vcpu, nodes * g.memory, nodes)), limit)
  {
    hide Wrap;
    QuotientGuard(nodes, g.vcpu);
    QuotientGuard(nodes, g.memory);
    var v, m := nodes * g.vcpu, nodes * g.memory;
    assert v >= 0 && m >= 0;
    assert nodes <= MAX / g.vcpu <==> InRange(v);
    assert nodes <= MAX / g.memory <==> InRange(m);
    assert InRange(limit.vcpu - used.vcpu) && InRange(limit.memory - used.memory) && InRange(limit.nodes - used.nodes);
  }

  // No int64 operation of an admission that reaches the pool lock overflows: the delta, the
  // revision increment, the scaled resources and the limit-minus-used differences.
  lemma NoOverflow(db: Db, req: CapacityRequest, enabled: bool)
    requires Sound(db) && TypedRequest(req) && Early(db, req, enabled).None?
    ensures var g := db.groups[req.group];
      var used := Used(db, g.pool);
      var limit := db.pools[g.pool].limit;
      Delta(g, req) == req.desired - g.target && Wrap(g.revision + 1) == g.revision + 1 &&
      InRange(limit.vcpu - used.vcpu) && InRange(limit.memory - used.memory) && InRange(limit.nodes - used.nodes) &&
      (Delta(g, req) > 0 ==>
        (Fits(g, limit, used, Delta(g, req)) <==>
          AtMost(Plus(used, Scale(g, g.pool, Delta(g, req))), limit)))
  {
    hide Linked, Coupled, NodesDistinct, Used;
    var g := db.groups[req.group];
    UsedNonNegative(db, g.pool);
    assert TypedGroup(g) && TypedPool(db.pools[g.pool]);
    if Delta(g, req) > 0 { FitsExactly(g, db.pools[g.pool].limit, Used(db, g.pool), Delta(g, req)); }
  }

  // What an admission means, without wrap-around and without an order of checks.
  predicate Admissible(db: Db, req: CapacityRequest, obs: Observed) {
    WellFormedRequest(req) && req.group in db.groups && KeyOf(req) !in db.requests && obs.enabled &&
    var g := db.groups[req.group];
    g.cluster == req.cluster && g.template == req.template && g.revision == req.expected < MAX &&
    g.min <= req.desired <= g.max && g.pool in db.pools &&
    (req.desired > g.target ==>
      AtMost(Plus(Used(db, g.pool), Scale(g, g.pool, req.desired - g.target)), db.pools[g.pool].limit)) &&
    (req.desired < g.target ==> obs.registered <= req.desired)
  }

  // SetTarget admits a request exactly when it is admissible.
  lemma AdmittedExactly(db: Db, req: CapacityRequest, obs: Observed)
    requires Sound(db) && TypedRequest(req)
    ensures Refusal(db, req, obs).None? <==> Admissible(db, req, obs)
  {
    hide Core, PoolBound, Used, Fits, Plus, Scale;
    if Early(db, req, obs.enabled).None? { NoOverflow(db, req, obs.enabled); }
    if req.group in db.groups { GroupTyped(db, req.group); }
  }

  // What each refusal means, again without wrap-around and without an order.
  predicate Warranted(db: Db, req: CapacityRequest, obs: Observed, e: Error) {
    match e
    case Invalid => !WellFormedRequest(req)
    case NotFound => req.group !in db.groups
    case Forbidden => req.group in db.groups && db.groups[req.group].cluster != req.cluster
    case ReplayMismatch => KeyOf(req) in db.requests && db.requests[KeyOf(req)].req != req
    case Inactive => !obs.enabled
    case TemplateMismatch => req.group in db.groups && db.groups[req.group].template != req.template
    case Conflict => req.group in db.groups && db.groups[req.group].revision != req.expected
    case Limit =>
      req.group in db.groups &&
      var g := db.groups[req.group];
      req.desired < g.min || req.desired > g.max || g.revision == MAX ||
      (req.desired > g.target && g.pool in db.pools &&
        !AtMost(Plus(Used(db, g.pool), Scale(g, g.pool, req.desired - g.target)), db.pools[g.pool].limit))
    case Fulfilled => req.group in db.groups && req.desired < db.groups[req.group].target && req.desired < obs.registered
  }

  // The order in which SetTarget looks; a replay is answered before the gate is looked at.
  function Turn(e: Error): nat {
    match e
    case Invalid => 0
    case NotFound => 1
    case Forbidden => 2
    case ReplayMismatch => 3
    case Inactive => 4
    case TemplateMismatch => 5
    case Conflict => 6
    case Limit => 7
    case Fulfilled => 8
  }

  predicate Replays(db: Db, req: CapacityRequest) {
    WellFormedRequest(req) && req.group in db.groups && db.groups[req.group].cluster == req.cluster &&
    KeyOf(req) in db.requests && db.requests[KeyOf(req)].req == req
  }

  ghost predicate FirstCause(db: Db, req: CapacityRequest, obs: Observed, e: Error) {
    Warranted(db, req, obs, e) && !(Replays(db, req) && Turn(e) > 3) &&
    forall f: Error :: Turn(f) < Turn(e) ==> !Warranted(db, req, obs, f)
  }

  // The checks before the pool row is locked, as the first warranted refusal among the first seven
  // and the policy part of the eighth.
  lemma EarlyCause(db: Db, req: CapacityRequest, obs: Observed, e: Error)
    requires Sound(db) && Early(db, req, obs.enabled) == Some(Rejected(e))
    ensures FirstCause(db, req, obs, e)
  {
    hide Core, PoolBound, Used, Plus, Scale;
    if req.group in db.groups { GroupTyped(db, req.group); }
  }

  lemma LateCause(db: Db, req: CapacityRequest, obs: Observed, e: Error)
    requires Sound(db) && TypedRequest(req) && Early(db, req, obs.enabled).None? && Refusal(db, req, obs) == Some(Rejected(e))
    ensures FirstCause(db, req, obs, e)
  {
    hide Core, PoolBound, Used, Fits, Plus, Scale;
    NoOverflow(db, req, obs.enabled);
    GroupTyped(db, req.group);
  }

  lemma OneFirstCause(db: Db, req: CapacityRequest, obs: Observed, e: Error, f: Error)
    requires FirstCause(db, req, obs, e) && FirstCause(db, req, obs, f)
    ensures e == f
  {
    hide Warranted, Replays;
    assert Turn(e) == Turn(f);
  }

  // SetTarget refuses a request with the first warranted error, answers a replay from the stored
  // result and admits everything else: an error is given exactly when it is the first.
  lemma RefusedExactly(db: Db, req: CapacityRequest, obs: Observed, e: Error)
    requires Sound(db) && TypedRequest(req)
    ensures Refusal(db, req, obs) == Some(Rejected(e)) <==> FirstCause(db, req, obs, e)
  {
    hide Sound, Early, FirstCause, Late, Used;
    var r := Refusal(db, req, obs);
    if r.Some? && r.value.Rejected? {
      if Early(db, req, obs.enabled).Some? { EarlyCause(db, req, obs, r.value.error); } else { LateCause(db, req, obs, r.value.error); }
      if FirstCause(db, req, obs, e) { OneFirstCause(db, req, obs, e, r.value.error); }
    } else if FirstCause(db, req, obs, e) {
      NoCause(db, req, obs, e);
    }
  }

  lemma ReplayedExactly(db: Db, req: CapacityRequest, obs: Observed)
    requires Sound(db)
    ensures (Refusal(db, req, obs).Some? && Refusal(db, req, obs).value.Accepted?) <==> Replays(db, req)
    ensures Replays(db, req) ==>
      Refusal(db, req, obs) == Some(Accepted(req.request, req.group, req.desired, db.requests[KeyOf(req)].result))
  {
    hide Sound, Used, Fits;
  }

  lemma NoCause(db: Db, req: CapacityRequest, obs: Observed, e: Error)
    requires Sound(db) && TypedRequest(req) && FirstCause(db, req, obs, e)
    ensures Refusal(db, req, obs).Some? && Refusal(db, req, obs).value.Rejected?
  {
    hide Sound, Refusal, Used, Plus, Scale;
    AdmittedExactly(db, req, obs);
    ReplayedExactly(db, req, obs);
    if Replays(db, req) { ReplayCause(db, req, obs, e); }
  }

  lemma ReplayCause(db: Db, req: CapacityRequest, obs: Observed, e: Error)
    requires Replays(db, req)
    ensures !FirstCause(db, req, obs, e)
  {
    hide Used, Plus, Scale;
  }

  lemma GroupTyped(db: Db, gid: string)
    requires Sound(db) && gid in db.groups
    ensures TypedGroup(db.groups[gid]) && db.groups[gid].pool in db.pools
  {
    hide Linked, Coupled, NodesDistinct, PoolBound;
  }

  lemma RetargetKeepsSound(db: Db, req: CapacityRequest, enabled: bool)
    requires Sound(db) && TypedRequest(req) && Early(db, req, enabled).None?
    ensures var g := db.groups[req.group];
      Sound(Retarget(db, req, g)) && forall p :: Used(Retarget(db, req, g), p) == Used(db, p)
  {
    hide Linked, Coupled, NodesDistinct;
    var g := db.groups[req.group];
    var d := Retarget(db, req, g);
    assert TypedGroup(g);
    NoOverflow(db, req, enabled);
    GroupsKeepSound(db, d);
    forall p ensures Used(d, p) == Used(db, p) { CreditsSame(db, d, p); }
  }

  lemma IntentsKeepSound(db: Db, gid: string, g: Group, revision: int, count: nat)
    requires Sound(db) && gid in db.groups && db.groups[gid].pool == g.pool && g.pool in db.pools
    requires AtMost(Plus(Used(db, g.pool), Scale(g, g.pool, count)), db.pools[g.pool].limit)
    ensures Sound(AddIntents(db, gid, g, revision, count))
  {
    hide Core, Used, AddIntents;
    assert Core(db);
    forall p | p in db.pools ensures AtMost(Used(AddIntents(db, gid, g, revision, count), p), db.pools[p].limit) {
      IntentsKeepCore(db, gid, g, revision, count, p);
    }
    IntentsKeepCore(db, gid, g, revision, count, g.pool);
  }

  // Every committed target change keeps the tables sound, whatever it read before the commit.
  lemma SetTargetKeepsSound(db: Db, req: CapacityRequest, obs: Observed, pick: Pick)
    requires Sound(db) && TypedRequest(req) && (req.group in db.groups ==> PickFits(db, req, pick))
    ensures Sound(SetTarget(db, req, obs, pick).0)
  {
    hide Core, Used, AddIntents, CancelWith, PickOk, Fits;
    if Refusal(db, req, obs).None? {
      var g := db.groups[req.group];
      var d := Retarget(db, req, g);
      NoOverflow(db, req, obs.enabled);
      RetargetKeepsSound(db, req, obs.enabled);
      if Delta(g, req) > 0 {
        IntentsKeepSound(d, req.group, g, Wrap(g.revision + 1), Delta(g, req));
      } else if Delta(g, req) < 0 {
        PickTransfer(db, d, req.group, -Delta(g, req), pick);
        PickKeepsSound(d, req.group, -Delta(g, req), pick);
      }
    }
  }

  lemma PickTransfer(db: Db, d: Db, gid: string, count: int, pick: Pick)
    requires PickOk(db, gid, count, pick) && d == db.(groups := d.groups, requests := d.requests)
    ensures PickOk(d, gid, count, pick)
  {
    assert Cancellable(d, gid) == Cancellable(db, gid);
    assert Markable(CancelOps(d, pick.cancel), gid) == Markable(CancelOps(db, pick.cancel), gid);
  }

  // ---------- Removals ----------

  lemma RemovalKeepsLinks(db: Db, gid: string, g: Group, removal: Removal)
    requires Linked(db) && gid in db.groups && removal.group == gid && removal.host in db.hosts
    ensures Linked(AddRemoval(db, gid, g, removal))
  {
    var db' := AddRemoval(db, gid, g, removal);
    FreshId(db);
    forall o | o in db'.ops ensures LinkedOp(db', o) { if o in db.ops { assert LinkedOp(db, o); } }
    forall h | h in db'.hosts ensures LinkedHost(db', h) { assert LinkedHost(db, h); }
    forall i | i in db'.removals ensures LinkedRemoval(db', i) { if i in db.removals { assert LinkedRemoval(db, i); } }
  }

  lemma RemovalKeepsSound(db: Db, gid: string, g: Group, removal: Removal)
    requires Sound(db) && gid in db.groups && removal.group == gid && removal.host in db.hosts
    ensures Sound(AddRemoval(db, gid, g, removal))
  {
    hide RowOk, Typed, NodesDistinct;
    var db' := AddRemoval(db, gid, g, removal);
    FreshId(db);
    RemovalKeepsLinks(db, gid, g, removal);
    forall h | h in db'.hosts ensures LinkedHost(db', h) && RowOk(RowOf(db', h), h) {
      LinkedHasRow(db, h);
      LinkedHasRow(db', h);
      assert RowOf(db', h) == RowOf(db, h);
    }
    forall p | p in db'.pools ensures AtMost(Used(db', p), db'.pools[p].limit) {
      RemovalChargesNothing(db, gid, g, removal, p);
    }
  }

  lemma RemovalChargesNothing(db: Db, gid: string, g: Group, removal: Removal, pool: string)
    requires Linked(db)
    ensures Used(AddRemoval(db, gid, g, removal), pool) == Used(db, pool)
  {
    var db' := AddRemoval(db, gid, g, removal);
    FreshId(db);
    hide Linked;
    SumSame(VcpuOf(db, pool), VcpuOf(db', pool), db.next);
    SumSame(MemoryOf(db, pool), MemoryOf(db', pool), db.next);
    SumSame(NodesOf(db, pool), NodesOf(db', pool), db.next);
    assert Credits(db', pool, db.next) == NOTHING;
  }

  predicate OnlyRemovalsAdded(db: Db, db': Db) {
    db' == db.(next := db'.next, ops := db'.ops, removals := db'.removals)
  }

  lemma {:induction false} RemovalsKeepSound(db: Db, g: Group, req: RemovalRequest, revision: int, count: nat)
    requires Sound(db) && req.group in db.groups && count <= |req.nodes|
    requires forall i :: 0 <= i < count ==> req.nodes[i].host in db.hosts
    ensures Sound(AddRemovals(db, g, req, revision, count))
    ensures OnlyRemovalsAdded(db, AddRemovals(db, g, req, revision, count))
  {
    hide Sound;
    if count > 0 {
      RemovalsKeepSound(db, g, req, revision, count - 1);
      RemovalKeepsSound(AddRemovals(db, g, req, revision, count - 1), req.group, g,
                        Removal(req.group, req.nodes[count - 1].host, false, revision, Some(req)));
    }
  }

  lemma {:induction false} NodesChecked(db: Db, gid: string, nodes: seq<RemovalNode>, i: nat)
    requires NodesError(db, gid, nodes).None? && i < |nodes|
    ensures NodeError(db, gid, nodes[i]).None?
  {
    if i > 0 { NodesChecked(db, gid, nodes[1..], i - 1); }
  }

  lemma LowerKeepsSound(db: Db, gid: string, count: int)
    requires Sound(db) && gid in db.groups && 0 <= count
    requires db.groups[gid].min <= db.groups[gid].target - count && db.groups[gid].revision < MAX
    ensures Sound(Lower(db, gid, count, db.groups[gid].revision + 1))
  {
    hide Linked, Coupled, NodesDistinct, PoolBound;
    assert TypedGroup(db.groups[gid]);
    GroupsKeepSound(db, Lower(db, gid, count, db.groups[gid].revision + 1));
  }

  // A batch of removals keeps the tables sound, and its two int64 operations do not overflow.
  lemma RemoveBatchKeepsSound(db: Db, cluster: string, req: RemovalRequest)
    requires Sound(db) && |req.nodes| <= MAX
    ensures Sound(RemoveBatch(db, cluster, req).0)
    ensures req.group in db.groups ==> InRange(db.groups[req.group].target - |req.nodes|)
    ensures RemoveBatch(db, cluster, req).0 != db ==> InRange(db.groups[req.group].revision + 1)
  {
    hide Linked, Coupled, NodesDistinct, PoolBound, AddRemovals, WellFormedNodes;
    if req.group in db.groups { assert TypedGroup(db.groups[req.group]); }
    if RemoveBatch(db, cluster, req).0 != db {
      var g := db.groups[req.group];
      forall i | 0 <= i < |req.nodes| ensures req.nodes[i].host in db.hosts {
        NodesChecked(db, req.group, req.nodes, i);
      }
      LowerKeepsSound(db, req.group, |req.nodes|);
      RemovalsKeepSound(Lower(db, req.group, |req.nodes|, g.revision + 1), g, req, g.revision + 1, |req.nodes|);
    }
  }

  // CreateRemoval has no guard on the revision; the table constraint rejects the wrapped value.
  lemma RemoveOneKeepsSound(db: Db, cluster: string, expected: int, r: NamedRemoval)
    requires Sound(db)
    ensures Sound(RemoveOne(db, cluster, expected, r).0)
  {
    hide Linked, Coupled, NodesDistinct, PoolBound, AddRemoval;
    if RemoveOne(db, cluster, expected, r).1.None? {
      var g := db.groups[r.group];
      assert TypedGroup(g);
      if r.preserve {
        RemovalKeepsSound(db, r.group, g, Removal(r.group, r.host, true, g.revision, None));
      } else {
        LowerKeepsSound(db, r.group, 1);
        RemovalKeepsSound(Lower(db, r.group, 1, g.revision + 1), r.group, g, Removal(r.group, r.host, false, g.revision + 1, None));
      }
    }
  }

  // ---------- Topology ----------

  lemma PoolKeepsSound(db: Db, id: string, limit: Resources)
    requires Sound(db)
    ensures Sound(CreatePool(db, id, limit))
  {
    var db' := CreatePool(db, id, limit);
    if db' == db { return; }
    hide Linked, Coupled, NodesDistinct, RowOk;
    FrameKeepsRows(db, db');
    assert TypedPool(Pool(limit, true));
    forall p | p in db'.pools ensures AtMost(Used(db', p), db'.pools[p].limit) {
      CreditsSame(db, db', p);
      if p !in db.pools { UnknownPoolUnused(db, p); }
    }
  }

  // No group can draw on a pool that does not exist yet.
  lemma UnknownPoolUnused(db: Db, pool: string)
    requires Typed(db.groups, db.pools) && pool !in db.pools
    ensures Used(db, pool) == NOTHING
  {
    forall h: nat ensures Credits(db, pool, h) == NOTHING { }
    SumZero(VcpuOf(db, pool), db.next);
    SumZero(MemoryOf(db, pool), db.next);
    SumZero(NodesOf(db, pool), db.next);
  }

  lemma NewGroupUncharged(db: Db, id: string, g: Group, pool: string)
    requires Linked(db)
    ensures Used(CreateGroup(db, id, g), pool) == Used(db, pool)
  {
    var db' := CreateGroup(db, id, g);
    forall h: nat | h < db.next ensures Credits(db', pool, h) == Credits(db, pool, h) {
      if h in db.resv {
        LinkedHasRow(db, h);
        assert LinkedOp(db, h);
      }
    }
    CreditsSame(db, db', pool);
  }

  lemma GroupKeepsSound(db: Db, id: string, g: Group)
    requires Sound(db)
    ensures Sound(CreateGroup(db, id, g))
  {
    var db' := CreateGroup(db, id, g);
    if db' == db { return; }
    hide Linked, Coupled, NodesDistinct, Used, RowOk;
    FrameKeepsRows(db, db');
    assert TypedGroup(db'.groups[id]);
    forall p | p in db'.pools ensures AtMost(Used(db', p), db'.pools[p].limit) {
      NewGroupUncharged(db, id, g, p);
    }
  }

  lemma TemplateKeepsSound(db: Db, id: string, expected: string, revision: string)
    requires Sound(db)
    ensures Sound(UpdateTemplate(db, id, expected, revision))
  {
    hide Linked, Coupled, NodesDistinct, PoolBound;
    if UpdateTemplate(db, id, expected, revision) == db { return; }
    assert TypedGroup(db.groups[id]);
    GroupsKeepSound(db, UpdateTemplate(db, id, expected, revision));
  }

  // Membership, zone, cluster and Dominator rows and the clock are outside the invariant.
  lemma EnvironmentKeepsSound(db: Db, db': Db)
    requires Sound(db)
    requires db' == db.(clock := db'.clock, members := db'.members, zones := db'.zones, clusters := db'.clusters, dominators := db'.dominators)
    ensures Sound(db')
  {
    FrameKeepsRows(db, db');
    hide Linked, Coupled, NodesDistinct;
    forall p | p in db'.pools ensures AtMost(Used(db', p), db'.pools[p].limit) {
      CreditsSame(db, db', p);
    }
  }

  // ---------- What the transactions leave alone ----------

  lemma OpsBelowNext(db: Db)
    requires Linked(db)
    ensures forall o :: o in db.ops ==> o < db.next
  {
    forall o | o in db.ops ensures o < db.next { assert LinkedOp(db, o); }
  }

  lemma HostsBelowNext(db: Db)
    requires Linked(db)
    ensures forall h :: h in db.hosts ==> h < db.next
  {
    forall h | h in db.hosts ensures h < db.next { assert LinkedHost(db, h) && LinkedOp(db, h); }
  }

  lemma {:induction false} RemovalsFrame(db: Db, g: Group, req: RemovalRequest, revision: int, count: nat)
    requires count <= |req.nodes|
    ensures OnlyRemovalsAdded(db, AddRemovals(db, g, req, revision, count))
  {
    if count > 0 { RemovalsFrame(db, g, req, revision, count - 1); }
  }

  lemma {:induction false} IntentsFrame(db: Db, gid: string, g: Group, revision: int, count: nat)
    ensures OnlyIntentsAdded(db, AddIntents(db, gid, g, revision, count))
  {
    if count > 0 { IntentsFrame(db, gid, g, revision, count - 1); }
  }

  lemma {:induction false} IntentsHold(db: Db, gid: string, g: Group, revision: int, count: nat)
    requires forall o :: o in db.ops || o in db.hosts ==> o < db.next
    ensures var d := AddIntents(db, gid, g, revision, count);
      d.groups == db.groups && d.requests == db.requests && d.pools == db.pools && db.next <= d.next &&
      (forall o :: o in db.ops ==> o in d.ops && d.ops[o] == db.ops[o]) &&
      (forall h :: h in db.hosts ==> h in d.hosts && d.hosts[h] == db.hosts[h])
  {
    if count > 0 { IntentsHold(db, gid, g, revision, count - 1); }
  }

  lemma PickFrame(db: Db, pick: Pick)
    requires pick.cancel <= db.ops.Keys
    ensures var d := CancelWith(db, pick);
      d.groups == db.groups && d.requests == db.requests && d.removals == db.removals && d.pools == db.pools
  {
  }
}
