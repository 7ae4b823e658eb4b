// What every transaction keeps true of the tables: referential integrity, the column
// types, the coupling of operation, host, reservation and binding, and pool limits.

module Coupling {
  import opened Options
  import opened Int64
  import opened Counting
  import opened Selection
  import opened Capacity
  import opened Admission

  // ---------- One record ----------

  predicate PastLaunch(s: HostState) {
    s.Booting? || s.Registering? || s.Converging? || s.Ready?
  }

  // The three coupled life cycles of an operation, its host and its credits.
  predicate CoupledStates(r: Row) {
    (r.op.state.Cancelled? <==> r.host.state.Terminated?) &&
    (r.resv.state.Released? <==> r.host.state.Terminated?) &&
    (r.resv.state.Committed? <==> PastLaunch(r.host.state)) &&
    (r.host.provider != "" <==> PastLaunch(r.host.state)) &&
    (r.op.state.Succeeded? <==> r.host.state.Ready?) &&
    (Handed(r.host.state) ==> r.op.state.Launching?) &&
    (PastLaunch(r.host.state) || r.host.state.Requested? || r.host.state.Provisioning? || r.host.state.Terminated?) &&
    (r.op.lease.Some? ==> Active(r.op)) &&
    (r.op.state.Leased? ==> r.op.lease.Some?)
  }

  // The readiness evidence that has to exist by the time a host converges.
  predicate Evidence(r: Row, o: Id) {
    (r.host.state.Converging? || r.host.state.Ready? ==> PinnedTo(r, o, r.host.desired)) &&
    (r.binding.Some? ==>
      r.binding.value.op == o && r.binding.value.node.name == o &&
      (r.host.state.Registering? || r.host.state.Converging? || r.host.state.Ready?)) &&
    (r.binding.Some? && r.binding.value.expected.Some? ==>
      r.binding.value.expected.value.revision == 1 && r.binding.value.expected.value.version != "") &&
    (r.binding.Some? && r.binding.value.released ==> r.host.state.Converging? || r.host.state.Ready?) &&
    (r.host.state.Ready? ==> r.binding.value.released && r.host.observed == r.host.desired)
  }

  predicate RowOk(r: Row, o: Id) {
    CoupledStates(r) && Evidence(r, o)
  }

  // ---------- All tables ----------

  predicate LinkedOp(db: Db, o: Id)
    requires o in db.ops
  {
    o < db.next && db.ops[o].group in db.groups &&
    (db.ops[o].kind.Provision? ==> db.ops[o].host == o && o in db.hosts)
  }

  predicate LinkedHost(db: Db, h: Id)
    requires h in db.hosts
  {
    h in db.ops && db.ops[h].kind.Provision? && db.ops[h].host == h && h in db.resv &&
    db.hosts[h].op == h && db.hosts[h].group == db.ops[h].group && db.resv[h].group == db.ops[h].group
  }

  predicate LinkedRemoval(db: Db, i: Id)
    requires i in db.removals
  {
    i in db.ops && db.ops[i].kind.RemoveNode? && db.ops[i].group == db.removals[i].group && db.removals[i].host in db.hosts
  }

  predicate Linked(db: Db) {
    (forall o :: o in db.ops ==> LinkedOp(db, o)) &&
    (forall h :: h in db.hosts ==> LinkedHost(db, h)) &&
    db.resv.Keys == db.hosts.Keys &&
    db.bindings.Keys <= db.hosts.Keys &&
    (forall i :: i in db.removals ==> LinkedRemoval(db, i))
  }

  // bigint columns and the CHECK constraints on them
  predicate TypedGroup(g: Group) {
    0 <= g.min <= g.target <= g.max <= MAX && 0 <= g.revision <= MAX && g.vcpu <= MAX && g.memory <= MAX
  }

  predicate TypedPool(p: Pool) {
    0 <= p.limit.vcpu <= MAX && 0 <= p.limit.memory <= MAX && 0 <= p.limit.nodes <= MAX
  }

  predicate Typed(groups: map<string, Group>, pools: map<string, Pool>) {
    (forall g :: g in groups ==> TypedGroup(groups[g]) && groups[g].pool in pools) &&
    (forall p :: p in pools ==> TypedPool(pools[p]))
  }

  predicate Coupled(db: Db)
    requires Linked(db)
  {
    forall o :: o in db.hosts ==> LinkedHost(db, o) && RowOk(RowOf(db, o), o)
  }

  predicate PoolBound(db: Db) {
    forall p :: p in db.pools ==> AtMost(Used(db, p), db.pools[p].limit)
  }

  // worker_provisioning_state.node_uid is UNIQUE
  predicate NodesDistinct(bindings: map<Id, Binding>) {
    forall g, h :: g in bindings && h in bindings && g != h ==> bindings[g].node.uid != bindings[h].node.uid
  }

  predicate Core(db: Db) {
    Linked(db) && Coupled(db) && Typed(db.groups, db.pools) && NodesDistinct(db.bindings)
  }

  predicate Sound(db: Db) {
    Core(db) && PoolBound(db)
  }

  // ---------- Fenced writes keep them ----------

  // What the statements themselves do not re-check. RecordLaunch follows the move to
  // PROVISIONING, the move to CONVERGING follows the pin, and the statements that finish a
  // handoff rely on the rows their transaction locked when it opened.
  predicate InOrder(r: Row, t: Token, w: Write) {
    (w.RecordLaunch? ==> r.host.state.Provisioning?) &&
    (w.SetState? && w.expected.Registering? ==> PinnedTo(r, t.op, r.host.desired)) &&
    (w.Finalize? ==> PinnedTo(r, t.op, r.host.desired) && r.binding.value.released)
  }

  lemma EffectKeepsRow(r: Row, t: Token, w: Write, s: Site)
    requires RowPermits(r, t, w, s) && InOrder(r, t, w) && RowOk(r, t.op) && t.host == t.op
    ensures RowOk(Effect(r, t, w, s), t.op)
  {
  }

  lemma ClaimKeepsRow(r: Row, o: Id, owner: string, until: int, now: int)
    requires RowOk(r, o) && Free(r.op, now)
    ensures RowOk(ClaimedRow(r, owner, until), o)
  {
  }

  predicate SameIdentity(r: Row, r': Row) {
    r'.op.kind == r.op.kind && r'.op.host == r.op.host && r'.op.group == r.op.group &&
    r'.host.op == r.host.op && r'.host.group == r.host.group && r'.resv.group == r.resv.group &&
    r'.resv.vcpu == r.resv.vcpu && r'.resv.memory == r.resv.memory
  }

  lemma CreditsSame(db: Db, db': Db, pool: string)
    requires db'.next == db.next
    requires forall h: nat :: h < db.next ==> Credits(db', pool, h) == Credits(db, pool, h)
    ensures Used(db', pool) == Used(db, pool)
  {
    SumSame(VcpuOf(db, pool), VcpuOf(db', pool), db.next);
    SumSame(MemoryOf(db, pool), MemoryOf(db', pool), db.next);
    SumSame(NodesOf(db, pool), NodesOf(db', pool), db.next);
  }

  // The columns the links are made of.
  predicate SameLinks(db: Db, db': Db) {
    db'.ops.Keys == db.ops.Keys && db'.hosts.Keys == db.hosts.Keys && db'.resv.Keys == db.resv.Keys &&
    db'.removals == db.removals && db.groups.Keys <= db'.groups.Keys && db.next <= db'.next &&
    (forall o :: o in db.ops ==> db'.ops[o].kind == db.ops[o].kind && db'.ops[o].host == db.ops[o].host && db'.ops[o].group == db.ops[o].group) &&
    (forall h :: h in db.hosts ==> db'.hosts[h].op == db.hosts[h].op && db'.hosts[h].group == db.hosts[h].group) &&
    (forall h :: h in db.resv ==> db'.resv[h].group == db.resv[h].group)
  }

  lemma LinksTransfer(db: Db, db': Db)
    requires Linked(db) && SameLinks(db, db') && db'.bindings.Keys <= db.hosts.Keys
    ensures Linked(db')
  {
    forall o | o in db'.ops ensures LinkedOp(db', o) { assert LinkedOp(db, o); }
    forall h | h in db'.hosts ensures LinkedHost(db', h) { assert LinkedHost(db, h); }
    forall i | i in db'.removals ensures LinkedRemoval(db', i) { assert LinkedRemoval(db, i); }
  }

  lemma LinkedHasRow(db: Db, h: Id)
    requires Linked(db) && h in db.hosts
    ensures HasRow(db, h) && db.ops[h].host == h && LinkedHost(db, h)
  {
    assert LinkedHost(db, h);
  }

  // Writing back a good record that keeps its identity and its credit keeps the tables sound.
  lemma PutKeepsLinked(db: Db, o: Id, r: Row)
    requires Linked(db) && HasRow(db, o) && SameIdentity(RowOf(db, o), r)
    ensures Linked(PutRow(db, o, r))
  {
    assert LinkedOp(db, o);
    hide LinkedOp, LinkedHost, LinkedRemoval;
    LinksTransfer(db, PutRow(db, o, r));
  }

  lemma PutKeepsPools(db: Db, o: Id, r: Row)
    requires Linked(db) && HasRow(db, o) && SameIdentity(RowOf(db, o), r) && PoolBound(db)
    requires r.resv.state.Released? <==> RowOf(db, o).resv.state.Released?
    ensures PoolBound(PutRow(db, o, r))
  {
    var db' := PutRow(db, o, r);
    assert LinkedOp(db, o);
    forall p | p in db'.pools ensures AtMost(Used(db', p), db'.pools[p].limit) {
      CreditsSame(db, db', p);
    }
  }

  predicate KeepsNode(r: Row, r': Row) {
    r.binding.Some? ==> r'.binding.Some? && r'.binding.value.node == r.binding.value.node
  }

  lemma PutOther(db: Db, o: Id, r: Row, h: Id)
    requires Linked(db) && HasRow(db, o) && h in db.hosts && h != o
    ensures HasRow(db, h) && HasRow(PutRow(db, o, r), h) && RowOf(PutRow(db, o, r), h) == RowOf(db, h)
  {
    LinkedHasRow(db, h);
    assert LinkedOp(db, o);
  }

  lemma PutSelf(db: Db, o: Id, r: Row)
    requires Linked(db) && HasRow(db, o) && SameIdentity(RowOf(db, o), r) && KeepsNode(RowOf(db, o), r)
    ensures HasRow(PutRow(db, o, r), o) && RowOf(PutRow(db, o, r), o) == r
  {
    assert LinkedOp(db, o);
  }

  lemma PutKeepsCoupled(db: Db, o: Id, r: Row)
    requires Linked(db) && Coupled(db) && HasRow(db, o) && SameIdentity(RowOf(db, o), r) && RowOk(r, o)
    requires KeepsNode(RowOf(db, o), r)
    ensures Linked(PutRow(db, o, r)) && Coupled(PutRow(db, o, r))
  {
    hide RowOk;
    var db' := PutRow(db, o, r);
    PutKeepsLinked(db, o, r);
    assert LinkedOp(db, o);
    forall h | h in db'.hosts ensures LinkedHost(db', h) && RowOk(RowOf(db', h), h) {
      assert LinkedHost(db', h);
      if h == o { PutSelf(db, o, r); } else { PutOther(db, o, r, h); }
    }
  }

  predicate UidFree(db: Db, o: Id, r: Row) {
    r.binding.Some? ==> forall h :: h in db.bindings && h != o ==> db.bindings[h].node.uid != r.binding.value.node.uid
  }

  lemma PutKeepsNodes(db: Db, o: Id, r: Row)
    requires Linked(db) && HasRow(db, o) && NodesDistinct(db.bindings) && UidFree(db, o, r)
    ensures NodesDistinct(PutRow(db, o, r).bindings)
  {
    assert LinkedOp(db, o);
  }

  lemma PutKeepsSound(db: Db, o: Id, r: Row)
    requires Sound(db) && HasRow(db, o)
    requires SameIdentity(RowOf(db, o), r) && RowOk(r, o) && KeepsNode(RowOf(db, o), r)
    requires r.resv.state.Released? <==> RowOf(db, o).resv.state.Released?
    requires UidFree(db, o, r)
    ensures Sound(PutRow(db, o, r))
  {
    PutKeepsCoupled(db, o, r);
    PutKeepsPools(db, o, r);
    PutKeepsNodes(db, o, r);
  }

  lemma EffectFrame(r: Row, t: Token, w: Write, s: Site)
    requires RowPermits(r, t, w, s) && RowOk(r, t.op)
    ensures var r' := Effect(r, t, w, s);
            SameIdentity(r, r') && KeepsNode(r, r') && (r'.resv.state.Released? <==> r.resv.state.Released?)
    ensures r.binding.None? && Effect(r, t, w, s).binding.Some? ==> w.BindNode? && s.uidFree && Effect(r, t, w, s).binding.value.node == w.identity
  {
  }

  lemma WriteKeepsSound(db: Db, t: Token, w: Write)
    requires Sound(db) && (Permits(db, t, w) ==> InOrder(RowOf(db, t.op), t, w))
    ensures Sound(Perform(db, t, w))
  {
    hide PoolBound, Typed, RowOk;
    if Permits(db, t, w) {
      var r, s := RowOf(db, t.op), SiteOf(db, t, w);
      assert LinkedOp(db, t.op);
      EffectKeepsRow(r, t, w, s);
      EffectFrame(r, t, w, s);
      PutKeepsSound(db, t.op, Effect(r, t, w, s));
    }
  }

  lemma UidStaysFree(db: Db, o: Id, r: Row)
    requires Linked(db) && NodesDistinct(db.bindings) && HasRow(db, o) && r.binding == RowOf(db, o).binding
    ensures UidFree(db, o, r)
  {
    assert LinkedOp(db, o);
  }

  lemma ClaimKeepsSound(db: Db, o: Id, owner: string, duration: int)
    requires Sound(db) && HasRow(db, o) && Free(db.ops[o], db.clock)
    ensures Sound(Claim(db, o, owner, duration))
  {
    hide PoolBound, Typed, RowOk, PutRow;
    var r := RowOf(db, o);
    var r' := ClaimedRow(r, owner, db.clock + duration);
    assert LinkedOp(db, o) && LinkedHost(db, o);
    UidStaysFree(db, o, r');
    hide Linked, Coupled, NodesDistinct, UidFree, Core;
    ClaimKeepsRow(r, o, owner, db.clock + duration, db.clock);
    PutKeepsSound(db, o, r');
  }

  lemma RowOkAt(db: Db, o: Id)
    requires Sound(db) && HasRow(db, o)
    ensures RowOk(RowOf(db, o), o) && Linked(db)
  {
    hide PoolBound, Typed, NodesDistinct, RowOk;
    assert LinkedOp(db, o) && LinkedHost(db, o);
  }
}
