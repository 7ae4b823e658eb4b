// What can only grow: from one state to any later state, fences rise, identities, bindings and
// pins stay as first written, life cycles move forward and settled outcomes stay settled.

module Progress {
  import opened Options
  import opened Int64
  import opened Selection
  import opened Capacity
  import opened Admission
  import opened Coupling
  import opened AdmissionSound

  function Rank(s: HostState): nat {
    match s
    case Requested => 0
    case Provisioning => 1
    case Booting => 2
    case Registering => 3
    case Converging => 4
    case Ready => 5
    case _ => 6
  }

  // A lease appears only together with a higher fence, keeps its owner, and once it has run
  // out is never extended.
  predicate LeaseStep(op: Op, op': Op, now: int) {
    op.fence <= op'.fence &&
    (op'.fence == op.fence && op'.lease.Some? ==>
      op.lease.Some? && op'.lease.value.owner == op.lease.value.owner &&
      (op.lease.value.until <= now ==> op'.lease == op.lease))
  }

  predicate SameIntent(op: Op, op': Op) {
    op'.kind == op.kind && op'.zone == op.zone && op'.group == op.group && op'.host == op.host &&
    op'.revision == op.revision && op'.template == op.template
  }

  predicate KeepsBinding(b: Option<Binding>, b': Option<Binding>) {
    b.Some? ==>
      b'.Some? && b'.value.op == b.value.op && b'.value.node == b.value.node &&
      (b.value.expected.Some? ==> b'.value.expected == b.value.expected) &&
      (b.value.released ==> b'.value.released)
  }

  predicate MovesForward(h: Host, h': Host) {
    Rank(h.state) <= Rank(h'.state) && (h'.state.Terminated? ==> h.state.Terminated? || Rank(h.state) <= 1) &&
    (h.state.Ready? ==> h'.state.Ready?) && (h.provider != "" ==> h'.provider == h.provider) &&
    (h.excess ==> h'.excess) && h'.group == h.group && h'.op == h.op
  }

  predicate KeepsCredit(c: Reservation, c': Reservation) {
    c'.group == c.group && c'.vcpu == c.vcpu && c'.memory == c.memory &&
    (c.state.Committed? ==> c'.state.Committed?) && (c.state.Released? ==> c'.state.Released?)
  }

  predicate Settled(op: Op, op': Op) {
    (op.state.Cancelled? ==> op'.state.Cancelled?) && (op.state.Succeeded? ==> op'.state.Succeeded?)
  }

  predicate Advances(r: Row, r': Row, now: int) {
    SameIntent(r.op, r'.op) && LeaseStep(r.op, r'.op, now) && Settled(r.op, r'.op) &&
    MovesForward(r.host, r'.host) && KeepsCredit(r.resv, r'.resv) && KeepsBinding(r.binding, r'.binding)
  }

  predicate GroupAdvances(g: Group, g': Group) {
    g'.cluster == g.cluster && g'.zone == g.zone && g'.pool == g.pool && g'.min == g.min && g'.max == g.max &&
    g'.vcpu == g.vcpu && g'.memory == g.memory && g.revision <= g'.revision &&
    (g'.revision == g.revision ==> g'.target == g.target)
  }

  predicate RowsAdvance(db: Db, db': Db) {
    db.hosts.Keys <= db'.hosts.Keys &&
    forall o :: o in db.hosts ==> HasRow(db, o) && HasRow(db', o) && Advances(RowOf(db, o), RowOf(db', o), db.clock)
  }

  predicate GroupsAdvance(groups: map<string, Group>, groups': map<string, Group>) {
    forall g :: g in groups ==> g in groups' && GroupAdvances(groups[g], groups'[g])
  }

  // Stored requests, removals and pool limits are never rewritten.
  predicate Recorded(db: Db, db': Db) {
    (forall k :: k in db.requests ==> k in db'.requests && db'.requests[k] == db.requests[k]) &&
    (forall i :: i in db.removals ==> i in db'.removals && db'.removals[i] == db.removals[i]) &&
    (forall p :: p in db.pools ==> p in db'.pools && db'.pools[p].limit == db.pools[p].limit)
  }

  predicate Progresses(db: Db, db': Db) {
    db.clock <= db'.clock && RowsAdvance(db, db') && GroupsAdvance(db.groups, db'.groups) && Recorded(db, db')
  }

  // ---------- Reflexive and transitive ----------

  lemma AdvancesSame(r: Row, now: int)
    ensures Advances(r, r, now)
  {
  }

  lemma AdvancesChain(r: Row, r': Row, r'': Row, now: int, now': int)
    requires Advances(r, r', now) && Advances(r', r'', now') && now <= now'
    ensures Advances(r, r'', now)
  {
  }

  lemma ProgressSame(db: Db)
    requires Linked(db)
    ensures Progresses(db, db)
  {
    forall o | o in db.hosts ensures HasRow(db, o) && Advances(RowOf(db, o), RowOf(db, o), db.clock) {
      LinkedHasRow(db, o);
    }
  }

  lemma ProgressChain(db: Db, db': Db, db'': Db)
    requires Progresses(db, db') && Progresses(db', db'')
    ensures Progresses(db, db'')
  {
    hide Advances;
    forall o | o in db.hosts ensures HasRow(db, o) && HasRow(db'', o) && Advances(RowOf(db, o), RowOf(db'', o), db.clock) {
      AdvancesChain(RowOf(db, o), RowOf(db', o), RowOf(db'', o), db.clock, db'.clock);
    }
  }

  // ---------- Every transaction progresses ----------

  lemma EffectAdvances(r: Row, t: Token, w: Write, s: Site)
    requires RowPermits(r, t, w, s) && RowOk(r, t.op) && InOrder(r, t, w)
    ensures Advances(r, Effect(r, t, w, s), s.now)
  {
  }

  lemma ClaimAdvances(r: Row, o: Id, owner: string, until: int, now: int)
    requires RowOk(r, o) && Free(r.op, now)
    ensures Advances(r, ClaimedRow(r, owner, until), now)
  {
  }

  lemma CancelAdvances(r: Row, o: Id, now: int)
    requires RowOk(r, o) && RowCancellable(r)
    ensures Advances(r, CancelledRow(r), now)
  {
  }

  lemma PutProgresses(db: Db, o: Id, r: Row)
    requires Linked(db) && HasRow(db, o)
    requires SameIdentity(RowOf(db, o), r) && Advances(RowOf(db, o), r, db.clock)
    ensures Progresses(db, PutRow(db, o, r))
  {
    var db' := PutRow(db, o, r);
    assert Recorded(db, db') && GroupsAdvance(db.groups, db'.groups);
    assert KeepsNode(RowOf(db, o), r);
    hide Advances, Recorded, GroupsAdvance;
    forall h | h in db.hosts ensures HasRow(db, h) && HasRow(db', h) && Advances(RowOf(db, h), RowOf(db', h), db.clock) {
      if h == o {
        PutSelf(db, o, r);
      } else {
        PutOther(db, o, r, h);
        AdvancesSame(RowOf(db, h), db.clock);
      }
    }
  }

  lemma WriteProgresses(db: Db, t: Token, w: Write)
    requires Sound(db) && (Permits(db, t, w) ==> InOrder(RowOf(db, t.op), t, w))
    ensures Progresses(db, Perform(db, t, w))
  {
    hide Progresses, PoolBound, Typed, NodesDistinct, Advances, InOrder;
    if Permits(db, t, w) {
      var r, s := RowOf(db, t.op), SiteOf(db, t, w);
      assert LinkedOp(db, t.op) && RowOk(r, t.op);
      EffectAdvances(r, t, w, s);
      EffectFrame(r, t, w, s);
      PutProgresses(db, t.op, Effect(r, t, w, s));
    } else {
      ProgressSame(db);
    }
  }

  lemma ClaimProgresses(db: Db, o: Id, owner: string, duration: int)
    requires Sound(db) && HasRow(db, o) && Free(db.ops[o], db.clock)
    ensures Progresses(db, Claim(db, o, owner, duration))
  {
    hide Progresses, PoolBound, Typed, NodesDistinct, Advances;
    var r := RowOf(db, o);
    assert LinkedOp(db, o) && RowOk(r, o);
    ClaimAdvances(r, o, owner, db.clock + duration, db.clock);
    PutProgresses(db, o, ClaimedRow(r, owner, db.clock + duration));
  }

  // Transactions that leave every provisioning record as it is.
  lemma FrameProgresses(db: Db, db': Db)
    requires Linked(db) && db'.hosts == db.hosts && db'.resv == db.resv && db'.bindings == db.bindings
    requires forall o :: o in db.ops ==> o in db'.ops && db'.ops[o] == db.ops[o]
    requires db.clock <= db'.clock && GroupsAdvance(db.groups, db'.groups) && Recorded(db, db')
    ensures Progresses(db, db')
  {
    hide Advances, GroupsAdvance, Recorded;
    forall o | o in db.hosts ensures HasRow(db, o) && HasRow(db', o) && Advances(RowOf(db, o), RowOf(db', o), db.clock) {
      LinkedHasRow(db, o);
      assert RowOf(db', o) == RowOf(db, o);
      AdvancesSame(RowOf(db, o), db.clock);
    }
  }

  lemma IntentProgresses(db: Db, gid: string, g: Group, revision: int)
    requires Linked(db)
    ensures Progresses(db, AddIntent(db, gid, g, revision))
  {
    hide Advances;
    var db' := AddIntent(db, gid, g, revision);
    FreshId(db);
    forall o | o in db.hosts ensures HasRow(db, o) && HasRow(db', o) && Advances(RowOf(db, o), RowOf(db', o), db.clock) {
      LinkedHasRow(db, o);
      assert RowOf(db', o) == RowOf(db, o);
      AdvancesSame(RowOf(db, o), db.clock);
    }
  }

  lemma {:induction false} IntentsProgress(db: Db, gid: string, g: Group, revision: int, count: nat)
    requires Core(db) && gid in db.groups && db.groups[gid].pool == g.pool
    ensures Progresses(db, AddIntents(db, gid, g, revision, count))
  {
    hide Progresses;
    if count == 0 {
      ProgressSame(db);
    } else {
      var mid := AddIntents(db, gid, g, revision, count - 1);
      IntentsProgress(db, gid, g, revision, count - 1);
      IntentsKeepCore(db, gid, g, revision, count - 1, g.pool);
      IntentProgresses(mid, gid, g, revision);
      ProgressChain(db, mid, AddIntents(db, gid, g, revision, count));
    }
  }

  lemma CancelProgresses(db: Db, gid: string, chosen: set<Id>)
    requires Core(db) && chosen <= Cancellable(db, gid)
    ensures Progresses(db, CancelOps(db, chosen))
  {
    hide Advances, RowOk, Typed, NodesDistinct;
    var db' := CancelOps(db, chosen);
    CancellableHosts(db, gid);
    forall o | o in db.hosts ensures HasRow(db, o) && HasRow(db', o) && Advances(RowOf(db, o), RowOf(db', o), db.clock) {
      CancelRow(db, chosen, o);
      if o in chosen { CancelAdvances(RowOf(db, o), o, db.clock); } else { AdvancesSame(RowOf(db, o), db.clock); }
    }
  }

  lemma MarkProgresses(db: Db, marks: set<Id>)
    requires Core(db)
    ensures Progresses(db, MarkExcess(db, marks))
  {
    hide RowOk, Typed, NodesDistinct;
    var db' := MarkExcess(db, marks);
    forall o | o in db.hosts ensures HasRow(db, o) && HasRow(db', o) && Advances(RowOf(db, o), RowOf(db', o), db.clock) {
      MarkRow(db, marks, o);
      MarkAdvances(RowOf(db, o), RowOf(db', o), db.clock);
    }
  }

  lemma MarkAdvances(r: Row, r': Row, now: int)
    requires r' == r || r' == r.(host := r.host.(excess := true))
    ensures Advances(r, r', now)
  {
  }

  lemma PickProgresses(db: Db, gid: string, count: int, pick: Pick)
    requires Core(db) && PickOk(db, gid, count, pick)
    ensures Progresses(db, CancelWith(db, pick))
  {
    hide Progresses, Core, CancelOps, MarkExcess, IsCancellable, IsMarkable;
    var mid := CancelOps(db, pick.cancel);
    CancelProgresses(db, gid, pick.cancel);
    CancelKeepsCore(db, gid, pick.cancel);
    MarkProgresses(mid, pick.mark);
    ProgressChain(db, mid, CancelWith(db, pick));
  }

  lemma RetargetProgresses(db: Db, req: CapacityRequest, enabled: bool)
    requires Sound(db) && TypedRequest(req) && Early(db, req, enabled).None?
    ensures Progresses(db, Retarget(db, req, db.groups[req.group]))
  {
    hide Linked, Coupled, PoolBound, NodesDistinct;
    var d := Retarget(db, req, db.groups[req.group]);
    NoOverflow(db, req, enabled);
    assert Recorded(db, d) && GroupsAdvance(db.groups, d.groups);
    hide Recorded, GroupsAdvance;
    FrameProgresses(db, d);
  }

  lemma SetTargetProgresses(db: Db, req: CapacityRequest, obs: Observed, pick: Pick)
    requires Sound(db) && TypedRequest(req) && (req.group in db.groups ==> PickFits(db, req, pick))
    ensures Progresses(db, SetTarget(db, req, obs, pick).0)
  {
    hide Progresses, Linked, Coupled, Typed, NodesDistinct, AddIntents, CancelWith, PickOk, Fits, Used;
    if Refusal(db, req, obs).Some? {
      ProgressSame(db);
    } else {
      var g := db.groups[req.group];
      var d := Retarget(db, req, g);
      RetargetProgresses(db, req, obs.enabled);
      RetargetKeepsSound(db, req, obs.enabled);
      if Delta(g, req) > 0 {
        IntentsProgress(d, req.group, g, Wrap(g.revision + 1), Delta(g, req));
        ProgressChain(db, d, SetTarget(db, req, obs, pick).0);
      } else if Delta(g, req) < 0 {
        PickTransfer(db, d, req.group, -Delta(g, req), pick);
        PickProgresses(d, req.group, -Delta(g, req), pick);
        ProgressChain(db, d, SetTarget(db, req, obs, pick).0);
      }
    }
  }

  lemma RemovalProgresses(db: Db, gid: string, g: Group, removal: Removal)
    requires Linked(db)
    ensures Progresses(db, AddRemoval(db, gid, g, removal))
  {
    var db' := AddRemoval(db, gid, g, removal);
    FreshId(db);
    assert Recorded(db, db') && GroupsAdvance(db.groups, db'.groups);
    hide Recorded, GroupsAdvance;
    FrameProgresses(db, db');
  }

  lemma SoundLinked(db: Db)
    requires Sound(db)
    ensures Linked(db)
  {
  }

  lemma {:induction false} RemovalsProgress(db: Db, g: Group, req: RemovalRequest, revision: int, count: nat)
    requires Sound(db) && req.group in db.groups && count <= |req.nodes|
    requires forall i :: 0 <= i < count ==> req.nodes[i].host in db.hosts
    ensures Progresses(db, AddRemovals(db, g, req, revision, count))
  {
    hide Progresses, Sound, Linked;
    SoundLinked(db);
    if count == 0 {
      ProgressSame(db);
    } else {
      var mid := AddRemovals(db, g, req, revision, count - 1);
      RemovalsProgress(db, g, req, revision, count - 1);
      RemovalsKeepSound(db, g, req, revision, count - 1);
      SoundLinked(mid);
      RemovalProgresses(mid, req.group, g, Removal(req.group, req.nodes[count - 1].host, false, revision, Some(req)));
      ProgressChain(db, mid, AddRemovals(db, g, req, revision, count));
    }
  }

  lemma LowerProgresses(db: Db, gid: string, count: int)
    requires Linked(db) && gid in db.groups
    ensures Progresses(db, Lower(db, gid, count, db.groups[gid].revision + 1))
  {
    FrameProgresses(db, Lower(db, gid, count, db.groups[gid].revision + 1));
  }

  lemma RemoveBatchProgresses(db: Db, cluster: string, req: RemovalRequest)
    requires Sound(db) && |req.nodes| <= MAX
    ensures Progresses(db, RemoveBatch(db, cluster, req).0)
  {
    hide Progresses, Linked, Coupled, NodesDistinct, PoolBound, AddRemovals, WellFormedNodes;
    if RemoveBatch(db, cluster, req).0 == db {
      ProgressSame(db);
    } else {
      var g := db.groups[req.group];
      assert TypedGroup(g);
      forall i | 0 <= i < |req.nodes| ensures req.nodes[i].host in db.hosts {
        NodesChecked(db, req.group, req.nodes, i);
      }
      var d := Lower(db, req.group, |req.nodes|, g.revision + 1);
      LowerKeepsSound(db, req.group, |req.nodes|);
      LowerProgresses(db, req.group, |req.nodes|);
      RemovalsProgress(d, g, req, g.revision + 1, |req.nodes|);
      ProgressChain(db, d, RemoveBatch(db, cluster, req).0);
    }
  }

  lemma RemoveOneProgresses(db: Db, cluster: string, expected: int, r: NamedRemoval)
    requires Sound(db)
    ensures Progresses(db, RemoveOne(db, cluster, expected, r).0)
  {
    hide Progresses, Linked, Coupled, NodesDistinct, PoolBound, AddRemoval;
    if RemoveOne(db, cluster, expected, r).1.Some? {
      ProgressSame(db);
    } else {
      var g := db.groups[r.group];
      assert TypedGroup(g);
      if r.preserve {
        RemovalProgresses(db, r.group, g, Removal(r.group, r.host, true, g.revision, None));
      } else {
        var d := Lower(db, r.group, 1, g.revision + 1);
        LowerKeepsSound(db, r.group, 1);
        LowerProgresses(db, r.group, 1);
        RemovalProgresses(d, r.group, g, Removal(r.group, r.host, false, g.revision + 1, None));
        ProgressChain(db, d, RemoveOne(db, cluster, expected, r).0);
      }
    }
  }
}
