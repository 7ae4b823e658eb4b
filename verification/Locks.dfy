// SetTarget as PostgreSQL runs it (internal/capacity/store.go): at READ COMMITTED nothing but row
// locks orders concurrent transactions. Each transaction advances one statement at a time, keeps
// what it has read, and may be overtaken by every statement its locks do not block. Every such
// interleaving is shown to be a run of the atomic machine in Protocol.

module Locks {
  import opened Options
  import opened Int64
  import opened Counting
  import opened Capacity
  import opened Admission
  import opened Coupling
  import opened AdmissionSound
  import opened Progress
  import opened Protocol
  import opened Safety
  import opened Guarantees

  // An open transaction and what its statements returned so far.
  datatype Tx =
    | GroupLocked(req: CapacityRequest, enabled: bool, g: Group)
    | PoolLocked(req: CapacityRequest, enabled: bool, g: Group, limit: Resources)
    | Checked(req: CapacityRequest, enabled: bool, g: Group, registered: int)
    | Cancelling(req: CapacityRequest, enabled: bool, g: Group, registered: int, cancel: set<Id>)
    | Marking(req: CapacityRequest, enabled: bool, g: Group, registered: int, cancel: set<Id>, mark: set<Id>)

  datatype Split = Split(w: World, txs: map<nat, Tx>)

  const IDLE: Split := Split(START, map[])

  datatype Step =
    | Begin(tx: nat, req: CapacityRequest, enabled: bool)
    | LockPool(tx: nat)
    | Check(tx: nat)
    | Choose(tx: nat, cancel: set<Id>)
    | Mark(tx: nat, mark: set<Id>)
    | Finish(tx: nat)
    | Abort(tx: nat)
    | Other(event: Event)

  // ---------- Row locks ----------

  predicate HoldsGroup(tx: Tx, gid: string) { tx.req.group == gid }
  predicate HoldsPool(tx: Tx, pool: string) { !tx.GroupLocked? && tx.g.pool == pool }
  function OpsHeld(tx: Tx): set<Id> { if tx.Cancelling? || tx.Marking? then tx.cancel else {} }
  function HostsHeld(tx: Tx): set<Id> { if tx.Marking? then tx.mark else {} }

  predicate GroupHeld(s: Split, gid: string) { exists k :: k in s.txs && HoldsGroup(s.txs[k], gid) }
  predicate PoolHeld(s: Split, pool: string) { exists k :: k in s.txs && HoldsPool(s.txs[k], pool) }
  predicate OpHeld(s: Split, o: Id) { exists k :: k in s.txs && o in OpsHeld(s.txs[k]) }
  predicate HostHeld(s: Split, h: Id) { exists k :: k in s.txs && h in HostsHeld(s.txs[k]) }

  // Writes that update the host row.
  predicate TouchesHost(w: Write) {
    w.RecordLaunch? || w.SetState? || w.PinExpected? || w.Finalize?
  }

  // Removals and template changes lock the group row first; a claim skips locked operations; a
  // controller's host update waits for a host that is being marked.
  predicate Blocked(s: Split, e: Event) {
    match e
    case Admit(_, _, _) => true
    case RemoveMany(_, batch) => GroupHeld(s, batch.group)
    case RemoveNamed(_, _, named) => GroupHeld(s, named.group)
    case NewTemplate(id, _, _) => GroupHeld(s, id)
    case Take(_, o, _, _) => OpHeld(s, o)
    case Issue(k) =>
      k in s.w.workers && WriteAt(s.w.workers[k]).Some? && TouchesHost(WriteAt(s.w.workers[k]).value) &&
      HostHeld(s, s.w.workers[k].t.host)
    case _ => false
  }

  // ---------- Statements ----------

  function RegisteredHosts(db: Db, gid: string): int { Sum(RegisteredOf(db, gid), db.next) }

  function Put(s: Split, k: nat, tx: Tx): Split { s.(txs := s.txs[k := tx]) }
  function Drop(s: Split, k: nat): Split { s.(txs := s.txs - {k}) }

  function PickOf(tx: Tx): Pick { if tx.Marking? then Pick(tx.cancel, tx.mark) else Pick({}, {}) }

  predicate CanFinish(tx: Tx) {
    (tx.Checked? && Delta(tx.g, tx.req) >= 0) || (tx.Marking? && Delta(tx.g, tx.req) < 0)
  }

  // All writes become visible at once, computed from what the transaction remembers.
  function Finished(s: Split, k: nat): Split
    requires k in s.txs && CanFinish(s.txs[k])
  {
    var tx := s.txs[k];
    if tx.req.group !in s.w.db.groups || !(PickOf(tx).cancel <= s.w.db.ops.Keys) then s
    else
      var change := Change(tx.req.group, Wrap(tx.g.revision + 1), tx.g.target, tx.req.desired,
                           Admitted(|PickOf(tx).cancel|, |PickOf(tx).mark|));
      Split(s.w.(db := Commit(s.w.db, tx.req, tx.g, PickOf(tx)), log := s.w.log + [change]), s.txs - {k})
  }

  function Advance(s: Split, step: Step): Split {
    var db := s.w.db;
    match step
    case Begin(k, req, enabled) =>
      if k in s.txs || !TypedRequest(req) || GroupHeld(s, req.group) || Early(db, req, enabled).Some? then s
      else Put(s, k, GroupLocked(req, enabled, db.groups[req.group]))
    case LockPool(k) =>
      if k in s.txs && s.txs[k].GroupLocked? && s.txs[k].g.pool in db.pools && !PoolHeld(s, s.txs[k].g.pool) then
        var tx := s.txs[k];
        Put(s, k, PoolLocked(tx.req, tx.enabled, tx.g, db.pools[tx.g.pool].limit))
      else s
    case Check(k) =>
      if k in s.txs && s.txs[k].PoolLocked? then
        var tx := s.txs[k];
        var registered := RegisteredHosts(db, tx.req.group);
        if Late(tx.g, tx.limit, Used(db, tx.g.pool), tx.req, registered).Some? then Drop(s, k)
        else Put(s, k, Checked(tx.req, tx.enabled, tx.g, registered))
      else s
    case Choose(k, cancel) =>
      if k in s.txs && s.txs[k].Checked? && cancel <= Cancellable(db, s.txs[k].req.group) &&
         |cancel| <= -Delta(s.txs[k].g, s.txs[k].req) then
        var tx := s.txs[k];
        Put(s, k, Cancelling(tx.req, tx.enabled, tx.g, tx.registered, cancel))
      else s
    case Mark(k, mark) =>
      if k in s.txs && s.txs[k].Cancelling? &&
         PickOk(db, s.txs[k].req.group, -Delta(s.txs[k].g, s.txs[k].req), Pick(s.txs[k].cancel, mark)) then
        var tx := s.txs[k];
        Put(s, k, Marking(tx.req, tx.enabled, tx.g, tx.registered, tx.cancel, mark))
      else s
    case Finish(k) => if k in s.txs && CanFinish(s.txs[k]) then Finished(s, k) else s
    case Abort(k) => Drop(s, k)
    case Other(e) => if Blocked(s, e) then s else s.(w := Apply(s.w, e))
  }

  function Play(s: Split, steps: seq<Step>): Split {
    if steps == [] then s else Advance(Play(s, steps[..|steps| - 1]), steps[|steps| - 1])
  }

  // ---------- What an open transaction may rely on ----------

  // Everything it read is still what a fresh read would return, apart from the admission gate
  // and the number of registered hosts, which it read without a lock.
  predicate TxOk(db: Db, tx: Tx) {
    TypedRequest(tx.req) && Early(db, tx.req, tx.enabled).None? && tx.g == db.groups[tx.req.group] &&
    (tx.PoolLocked? ==> tx.limit == db.pools[tx.g.pool].limit) &&
    (tx.Checked? || tx.Cancelling? || tx.Marking? ==>
      Late(tx.g, db.pools[tx.g.pool].limit, Used(db, tx.g.pool), tx.req, tx.registered).None?) &&
    (tx.Cancelling? ==> tx.cancel <= Cancellable(db, tx.req.group)) &&
    (tx.Marking? ==> PickOk(db, tx.req.group, -Delta(tx.g, tx.req), PickOf(tx)))
  }

  predicate Disjoint(txs: map<nat, Tx>) {
    forall j, k :: j in txs && k in txs && j != k ==>
      txs[j].req.group != txs[k].req.group &&
      (!txs[j].GroupLocked? && !txs[k].GroupLocked? ==> txs[j].g.pool != txs[k].g.pool)
  }

  predicate Consistent(s: Split) {
    Disjoint(s.txs) && forall k :: k in s.txs ==> TxOk(s.w.db, s.txs[k])
  }

  // What a change of the tables must leave alone for a transaction to stay good.
  predicate Spared(db: Db, db': Db, tx: Tx) {
    var gid := tx.req.group;
    gid in db.groups && gid in db'.groups && db'.groups[gid] == db.groups[gid] &&
    (KeyOf(tx.req) in db'.requests ==> KeyOf(tx.req) in db.requests) &&
    (tx.g.pool in db.pools ==> tx.g.pool in db'.pools && db'.pools[tx.g.pool].limit == db.pools[tx.g.pool].limit) &&
    (!tx.GroupLocked? ==> Used(db', tx.g.pool) == Used(db, tx.g.pool)) &&
    RowsHeld(db, db', OpsHeld(tx), OpsHeld(tx) + HostsHeld(tx))
  }

  predicate RowsHeld(db: Db, db': Db, ops: set<Id>, hosts: set<Id>) {
    (forall o :: o in ops && o in db.ops ==> o in db'.ops && db'.ops[o] == db.ops[o]) &&
    (forall h :: h in hosts && h in db.hosts ==> h in db'.hosts && db'.hosts[h] == db.hosts[h])
  }

  // ---------- A spared transaction stays good ----------

  lemma HeldCancellable(db: Db, db': Db, gid: string, cancel: set<Id>)
    requires Linked(db) && Linked(db') && cancel <= Cancellable(db, gid) && RowsHeld(db, db', cancel, cancel)
    ensures cancel <= Cancellable(db', gid) && cancel <= db.ops.Keys && cancel <= db'.ops.Keys
    ensures cancel <= db.hosts.Keys && cancel <= db'.hosts.Keys
  {
    CancellableHosts(db, gid);
    forall o | o in cancel ensures o in Cancellable(db', gid) {
      assert LinkedOp(db, o);
      LinkedHasRow(db', o);
    }
  }

  // Being markable after the cancellations, read off the uncancelled row.
  lemma MarkableRow(db: Db, gid: string, cancel: set<Id>, h: Id)
    requires Sound(db) && cancel <= db.ops.Keys && cancel <= db.hosts.Keys
    ensures h in Markable(CancelOps(db, cancel), gid) <==>
      h in db.hosts && h !in cancel && db.hosts[h].group == gid && !db.hosts[h].excess &&
      (db.hosts[h].state.Requested? || db.hosts[h].state.Provisioning? || db.hosts[h].state.Booting?)
  {
    hide PoolBound, Typed, NodesDistinct, Evidence;
    if h in db.hosts {
      LinkedHasRow(db, h);
      assert RowOk(RowOf(db, h), h);
      CancelRow(db, cancel, h);
      hide Linked, RowOk, Coupled;
      assert IsMarkable(CancelOps(db, cancel), gid, h) <==> h in Markable(CancelOps(db, cancel), gid);
    }
  }

  lemma HeldMark(db: Db, db': Db, gid: string, pick: Pick, h: Id)
    requires Sound(db) && Sound(db') && RowsHeld(db, db', pick.cancel, pick.cancel + pick.mark) && h in pick.mark
    requires pick.cancel <= db.ops.Keys && pick.cancel <= db.hosts.Keys && h in Markable(CancelOps(db, pick.cancel), gid)
    requires pick.cancel <= db'.ops.Keys && pick.cancel <= db'.hosts.Keys
    ensures h in Markable(CancelOps(db', pick.cancel), gid)
  {
    hide Sound, CancelOps, Markable;
    MarkableRow(db, gid, pick.cancel, h);
    MarkableRow(db', gid, pick.cancel, h);
  }

  lemma HeldPick(db: Db, db': Db, gid: string, count: int, pick: Pick)
    requires Sound(db) && Sound(db') && PickOk(db, gid, count, pick)
    requires RowsHeld(db, db', pick.cancel, pick.cancel + pick.mark)
    ensures PickOk(db', gid, count, pick)
  {
    hide Sound, Linked, CancelOps, Cancellable, Markable;
    assert RowsHeld(db, db', pick.cancel, pick.cancel);
    hide RowsHeld;
    SoundLinked(db);
    SoundLinked(db');
    HeldCancellable(db, db', gid, pick.cancel);
    forall h | h in pick.mark ensures h in Markable(CancelOps(db', pick.cancel), gid) {
      HeldMark(db, db', gid, pick, h);
    }
  }

  lemma EarlySame(db: Db, db': Db, tx: Tx)
    requires Early(db, tx.req, tx.enabled).None? && tx.g == db.groups[tx.req.group] && Spared(db, db', tx)
    ensures Early(db', tx.req, tx.enabled).None?
  {
    hide Used, RowsHeld;
  }

  lemma TxStays(db: Db, db': Db, tx: Tx)
    requires Sound(db) && Sound(db') && TxOk(db, tx) && Spared(db, db', tx)
    ensures TxOk(db', tx)
  {
    hide Sound, Linked, Used, Cancellable, PickOk, RowsHeld, Late;
    EarlySame(db, db', tx);
    assert tx.g.pool in db.pools;
    hide Early;
    SoundLinked(db);
    SoundLinked(db');
    if tx.Cancelling? {
      assert OpsHeld(tx) + HostsHeld(tx) == tx.cancel;
      HeldCancellable(db, db', tx.req.group, tx.cancel);
    }
    if tx.Marking? { HeldPick(db, db', tx.req.group, -Delta(tx.g, tx.req), PickOf(tx)); }
  }

  // ---------- Events that charge nothing ----------

  predicate Steady(db: Db, db': Db) {
    db.next <= db'.next && db'.hosts.Keys == db.hosts.Keys &&
    forall h :: h in db.hosts ==> (db'.hosts[h].state.Terminated? <==> db.hosts[h].state.Terminated?)
  }

  // A record that advances without terminating keeps its charge.
  lemma SteadyRow(r: Row, r': Row, o: Id, now: int)
    requires RowOk(r, o) && RowOk(r', o) && Advances(r, r', now) && (r'.host.state.Terminated? <==> r.host.state.Terminated?)
    ensures r'.resv.group == r.resv.group && r'.resv.vcpu == r.resv.vcpu && r'.resv.memory == r.resv.memory
    ensures r'.resv.state.Released? <==> r.resv.state.Released?
  {
    hide Evidence, SameIntent, LeaseStep, KeepsBinding, MovesForward;
  }

  lemma SteadyRows(db: Db, db': Db, h: Id)
    requires Linked(db) && Linked(db') && Progresses(db, db') && h in db.hosts && h in db'.hosts
    ensures HasRow(db, h) && HasRow(db', h) && Advances(RowOf(db, h), RowOf(db', h), db.clock) && h < db.next
    ensures h in db.resv && h in db'.resv && RowOf(db, h).resv == db.resv[h] && RowOf(db', h).resv == db'.resv[h]
    ensures db.resv[h].group in db.groups && db.resv[h].group in db'.groups &&
      db'.groups[db.resv[h].group].pool == db.groups[db.resv[h].group].pool
  {
    hide Advances, Recorded;
    LinkedHasRow(db, h);
    LinkedHasRow(db', h);
    assert LinkedOp(db, h);
    assert GroupAdvances(db.groups[db.resv[h].group], db'.groups[db.resv[h].group]);
  }

  lemma SteadyCredit(db: Db, db': Db, pool: string, h: Id)
    requires Sound(db) && Sound(db') && Progresses(db, db') && Steady(db, db')
    ensures Credits(db', pool, h) == Credits(db, pool, h) && (h >= db.next ==> Credits(db, pool, h) == NOTHING)
  {
    hide Sound, Linked, Progresses, RowOk, Advances;
    SoundLinked(db);
    SoundLinked(db');
    if h in db.hosts {
      SteadyRows(db, db', h);
      RowOkAt(db, h);
      RowOkAt(db', h);
      HostOfOp(db, h);
      HostOfOp(db', h);
      SteadyRow(RowOf(db, h), RowOf(db', h), h, db.clock);
    } else {
      NoHostNoCredit(db, h);
      NoHostNoCredit(db', h);
    }
  }

  lemma NoHostNoCredit(db: Db, h: Id)
    requires Linked(db) && h !in db.hosts
    ensures h !in db.resv
  {
  }

  lemma SteadyUse(db: Db, db': Db, pool: string)
    requires Sound(db) && Sound(db') && Progresses(db, db') && Steady(db, db')
    ensures Used(db', pool) == Used(db, pool)
  {
    hide Sound, Progresses, Credits;
    forall h: nat ensures Credits(db', pool, h) == Credits(db, pool, h) && (h >= db.next ==> Credits(db, pool, h) == NOTHING) {
      SteadyCredit(db, db', pool, h);
    }
    SumSame(VcpuOf(db, pool), VcpuOf(db', pool), db.next);
    SumSame(MemoryOf(db, pool), MemoryOf(db', pool), db.next);
    SumSame(NodesOf(db, pool), NodesOf(db', pool), db.next);
    SumExtend(VcpuOf(db', pool), db.next, db'.next);
    SumExtend(MemoryOf(db', pool), db.next, db'.next);
    SumExtend(NodesOf(db', pool), db.next, db'.next);
  }

  // ---------- Every event the locks let through spares every open transaction ----------

  predicate Mild(db: Db, db': Db, tx: Tx) {
    Steady(db, db') && db'.requests == db.requests &&
    (tx.req.group in db.groups ==> tx.req.group in db'.groups && db'.groups[tx.req.group] == db.groups[tx.req.group]) &&
    RowsHeld(db, db', OpsHeld(tx), OpsHeld(tx) + HostsHeld(tx))
  }

  lemma MildSpares(db: Db, db': Db, tx: Tx)
    requires Sound(db) && Sound(db') && Progresses(db, db') && Mild(db, db', tx) && TxOk(db, tx)
    ensures Spared(db, db', tx)
  {
    hide Sound, Used, RowsHeld, RowsAdvance, GroupsAdvance, Late, Cancellable, PickOk;
    if !tx.GroupLocked? { SteadyUse(db, db', tx.g.pool); }
  }

  lemma MildSame(db: Db, tx: Tx)
    ensures Mild(db, db, tx)
  {
  }

  lemma MildCatalog(s: Split, e: Event, k: nat)
    requires k in s.txs && !Blocked(s, e) && (e.Tick? || e.Topology? || e.NewPool? || e.NewGroup? || e.NewTemplate?)
    ensures Mild(s.w.db, Apply(s.w, e).db, s.txs[k])
  {
    hide TopologyFree;
    assert HoldsGroup(s.txs[k], s.txs[k].req.group);
  }

  lemma OpsKeptMild(db: Db, db': Db, tx: Tx, gid: string)
    requires OpsKept(db, db') && db'.requests == db.requests && gid != tx.req.group && gid in db.groups && gid in db'.groups
    requires db'.groups == db.groups[gid := db'.groups[gid]]
    ensures Mild(db, db', tx)
  {
  }

  lemma MildBatch(s: Split, e: Event, k: nat)
    requires Linked(s.w.db) && k in s.txs && !Blocked(s, e) && e.RemoveMany?
    ensures Mild(s.w.db, Apply(s.w, e).db, s.txs[k])
  {
    hide Linked, Mild, WellFormedNodes, NodesError, AddRemovals, IsReplay, OpsKept;
    MildSame(s.w.db, s.txs[k]);
    var db, db', req := s.w.db, Apply(s.w, e).db, e.batch;
    if db' != db {
      assert HoldsGroup(s.txs[k], s.txs[k].req.group);
      var g := db.groups[req.group];
      var lowered := Lower(db, req.group, |req.nodes|, Wrap(g.revision + 1));
      OpsBelowNext(db);
      RemovalsKeepOps(lowered, g, req, Wrap(g.revision + 1), |req.nodes|);
      RemovalsFrame(lowered, g, req, Wrap(g.revision + 1), |req.nodes|);
      OpsKeptLower(db, lowered, db');
      OpsKeptMild(db, db', s.txs[k], req.group);
    }
  }

  lemma OpsKeptLower(db: Db, lowered: Db, db': Db)
    requires OpsKept(lowered, db') && lowered == db.(groups := lowered.groups)
    ensures OpsKept(db, db')
  {
  }

  lemma NamedShape(db: Db, cluster: string, expected: int, r: NamedRemoval)
    requires RemoveOne(db, cluster, expected, r).1.None? && forall o :: o in db.ops ==> o < db.next
    ensures var d := RemoveOne(db, cluster, expected, r).0;
      OpsKept(db, d) && d.requests == db.requests && r.group in db.groups && r.group in d.groups &&
      d.groups == db.groups[r.group := d.groups[r.group]]
  {
    hide UnderRemoval;
  }

  lemma MildNamed(s: Split, e: Event, k: nat)
    requires Linked(s.w.db) && k in s.txs && !Blocked(s, e) && e.RemoveNamed?
    ensures Mild(s.w.db, Apply(s.w, e).db, s.txs[k])
  {
    hide Linked, Mild, RemoveOne, OpsKept;
    MildSame(s.w.db, s.txs[k]);
    if RemoveOne(s.w.db, e.caller, e.expected, e.named).1.None? {
      assert HoldsGroup(s.txs[k], s.txs[k].req.group);
      OpsBelowNext(s.w.db);
      NamedShape(s.w.db, e.caller, e.expected, e.named);
      OpsKeptMild(s.w.db, Apply(s.w, e).db, s.txs[k], e.named.group);
    }
  }

  // A record written back, when its operation is not held and its host is held only if unchanged.
  lemma MildPut(db: Db, o: Id, r: Row, tx: Tx)
    requires Linked(db) && HasRow(db, o)
    requires o !in OpsHeld(tx) && (o in HostsHeld(tx) ==> r.host == db.hosts[db.ops[o].host])
    requires r.host.state.Terminated? <==> db.hosts[db.ops[o].host].state.Terminated?
    ensures Mild(db, PutRow(db, o, r), tx)
  {
    assert LinkedOp(db, o);
  }

  lemma MildTake(s: Split, e: Event, k: nat)
    requires Linked(s.w.db) && k in s.txs && !Blocked(s, e) && e.Take?
    ensures Mild(s.w.db, Apply(s.w, e).db, s.txs[k])
  {
    hide Linked, Mild, Locked, MemberReady, DominatorOf, Free, PutRow;
    MildSame(s.w.db, s.txs[k]);
    var db, db' := s.w.db, Apply(s.w, e).db;
    if db' != db { MildPut(db, e.op, ClaimedRow(RowOf(db, e.op), e.owner, db.clock + e.duration), s.txs[k]); }
  }

  lemma EffectHost(r: Row, t: Token, w: Write, s: Site)
    requires RowPermits(r, t, w, s) && RowOk(r, t.op)
    ensures (Effect(r, t, w, s).host.state.Terminated? <==> r.host.state.Terminated?) && r.op.lease.Some?
    ensures !TouchesHost(w) ==> Effect(r, t, w, s).host == r.host
  {
  }

  lemma HeldUnleased(db: Db, tx: Tx, o: Id)
    requires TxOk(db, tx) && o in OpsHeld(tx)
    ensures o in db.ops && db.ops[o].lease.None?
  {
    hide Early, Late, Used, Markable, CancelOps;
    assert o in Cancellable(db, tx.req.group);
  }

  lemma MildWrite(db: Db, t: Token, w: Write, tx: Tx)
    requires Sound(db) && TxOk(db, tx) && t.host == t.op
    requires TouchesHost(w) ==> t.host !in HostsHeld(tx)
    ensures Mild(db, Perform(db, t, w), tx)
  {
    hide Sound, Linked, TxOk, Mild, Permits, RowPermits, RowOk, Effect, PutRow;
    MildSame(db, tx);
    SoundLinked(db);
    if Permits(db, t, w) {
      PermitsLive(db, t, w);
      RowOkAt(db, t.op);
      HostOfOp(db, t.op);
      var r, site := RowOf(db, t.op), SiteOf(db, t, w);
      assert RowPermits(r, t, w, site);
      EffectHost(r, t, w, site);
      if t.op in OpsHeld(tx) { HeldUnleased(db, tx, t.op); }
      MildPut(db, t.op, Effect(r, t, w, site), tx);
    }
  }

  lemma MildIssue(s: Split, e: Event, k: nat)
    requires Safe(s.w) && k in s.txs && TxOk(s.w.db, s.txs[k]) && !Blocked(s, e) && e.Issue?
    ensures Mild(s.w.db, Apply(s.w, e).db, s.txs[k])
  {
    hide Sound, WriteAhead, Stands, TxOk, Mild, Perform, Permits, LockedByOther;
    MildSame(s.w.db, s.txs[k]);
    if e.worker in s.w.workers && WriteAt(s.w.workers[e.worker]).Some? {
      var pc := s.w.workers[e.worker];
      assert WorkerOk(s.w.db, pc);
      assert pc.t.host in HostsHeld(s.txs[k]) ==> HostHeld(s, pc.t.host);
      MildWrite(s.w.db, pc.t, WriteAt(pc).value, s.txs[k]);
    }
  }

  lemma MildExtend(s: Split, e: Event, k: nat)
    requires Safe(s.w) && k in s.txs && TxOk(s.w.db, s.txs[k]) && e.Extend?
    ensures Mild(s.w.db, Apply(s.w, e).db, s.txs[k])
  {
    hide Sound, WriteAhead, Stands, TxOk, Mild, Perform, Permits, Locked;
    MildSame(s.w.db, s.txs[k]);
    if e.worker in s.w.workers {
      var pc := s.w.workers[e.worker];
      assert WorkerOk(s.w.db, pc);
      MildWrite(s.w.db, pc.t, Renew(e.lease), s.txs[k]);
    }
  }

  lemma OtherStays(s: Split, e: Event, k: nat)
    requires Safe(s.w) && k in s.txs && TxOk(s.w.db, s.txs[k]) && !Blocked(s, e)
    ensures TxOk(Apply(s.w, e).db, s.txs[k])
  {
    SafeSound(s.w);
    StepSafe(s.w, e);
    SafeSound(Apply(s.w, e));
    hide Safe, Sound, Linked, Progresses, Apply, TxOk, Mild, Spared, Blocked;
    SoundLinked(s.w.db);
    match e {
      case Tick(_) => MildCatalog(s, e, k);
      case Topology(_, _, _, _) => MildCatalog(s, e, k);
      case NewPool(_, _) => MildCatalog(s, e, k);
      case NewGroup(_, _) => MildCatalog(s, e, k);
      case NewTemplate(_, _, _) => MildCatalog(s, e, k);
      case Admit(_, _, _) => AdmitBlocked(s, e);
      case RemoveMany(_, _) => MildBatch(s, e, k);
      case RemoveNamed(_, _, _) => MildNamed(s, e, k);
      case Take(_, _, _, _) => MildTake(s, e, k);
      case Issue(_) => MildIssue(s, e, k);
      case Extend(_, _) => MildExtend(s, e, k);
      case _ =>
        MovesKeepTables(s.w, e);
        MildSame(s.w.db, s.txs[k]);
    }
    MildSpares(s.w.db, Apply(s.w, e).db, s.txs[k]);
    TxStays(s.w.db, Apply(s.w, e).db, s.txs[k]);
  }

  lemma AdmitBlocked(s: Split, e: Event)
    ensures e.Admit? ==> Blocked(s, e)
  {
  }

  // ---------- A commit spares the transactions on other groups and pools ----------

  lemma CancelElsewhere(db: Db, gid: string, chosen: set<Id>, pool: string)
    requires Sound(db) && gid in db.groups && db.groups[gid].pool != pool && chosen <= Cancellable(db, gid)
    ensures chosen <= db.ops.Keys && Used(CancelOps(db, chosen), pool) == Used(db, pool)
  {
    hide Coupled, PoolBound, Typed, NodesDistinct;
    CancellableHosts(db, gid);
    HostsAreOps(db, chosen);
    var d := CancelOps(db, chosen);
    forall h: nat | h < db.next ensures Credits(d, pool, h) == Credits(db, pool, h) {
      if h in chosen { LinkedHasRow(db, h); }
    }
    hide Linked, CancelOps, Credits;
    CreditsSame(db, d, pool);
  }

  lemma CommitElsewhere(db: Db, req: CapacityRequest, obs: Observed, pick: Pick, pool: string)
    requires Sound(db) && Admits(db, req, obs, pick) && db.groups[req.group].pool != pool
    ensures Used(Commit(db, req, db.groups[req.group], pick), pool) == Used(db, pool)
  {
    hide Core, Used, AddIntents, CancelOps, Cancellable, Markable, Fits, PoolBound;
    var g := db.groups[req.group];
    var d := Retarget(db, req, g);
    RetargetKeepsSound(db, req, obs.enabled);
    assert Core(d);
    if Delta(g, req) > 0 {
      IntentsKeepCore(d, req.group, g, Wrap(g.revision + 1), Delta(g, req), pool);
    } else if Delta(g, req) < 0 {
      PickTransfer(db, d, req.group, -Delta(g, req), pick);
      CancelElsewhere(d, req.group, pick.cancel, pool);
      MarkCharges(CancelOps(d, pick.cancel), pick.mark, pool);
    }
  }

  lemma PickHolds(db: Db, gid: string, count: int, pick: Pick, h: Id)
    requires Sound(db) && PickOk(db, gid, count, pick)
    ensures h in db.hosts && db.hosts[h].group != gid ==>
      var d := CancelWith(db, pick); h in d.hosts && d.hosts[h] == db.hosts[h] && h in d.ops && h in db.ops && d.ops[h] == db.ops[h]
  {
    hide Sound, Linked, Markable, Cancellable, CancelOps, MarkExcess;
    SoundLinked(db);
    CancellableHosts(db, gid);
    if h in db.hosts && db.hosts[h].group != gid {
      LinkedHasRow(db, h);
      CancelRow(db, pick.cancel, h);
      MarkableRow(db, gid, pick.cancel, h);
      CancelKeepsLinks(db, pick.cancel);
      MarkRow(CancelOps(db, pick.cancel), pick.mark, h);
    }
  }

  lemma PickHoldsRows(db: Db, d: Db, gid: string, count: int, pick: Pick, tx: Tx)
    requires Sound(db) && Sound(d) && d.hosts == db.hosts && d.ops == db.ops && PickOk(d, gid, count, pick) && TxOk(db, tx) && tx.req.group != gid
    ensures RowsHeld(db, CancelWith(d, pick), OpsHeld(tx), OpsHeld(tx) + HostsHeld(tx))
  {
    hide Sound, CancelWith, PickOk, TxOk, RowsHeld;
    assert pick.cancel <= d.ops.Keys by { PickedOps(d, gid, count, pick); }
    var db' := CancelWith(d, pick);
    forall h | h in OpsHeld(tx) + HostsHeld(tx)
      ensures h in db'.hosts && h in db.hosts && db'.hosts[h] == db.hosts[h] && h in db'.ops && h in db.ops && db'.ops[h] == db.ops[h]
    {
      HeldGroup(db, tx, h);
      PickHolds(d, gid, count, pick, h);
    }
    HoldThese(db, db', OpsHeld(tx), OpsHeld(tx) + HostsHeld(tx));
  }

  lemma PickedOps(db: Db, gid: string, count: int, pick: Pick)
    requires PickOk(db, gid, count, pick)
    ensures pick.cancel <= db.ops.Keys
  {
  }

  // The rows another transaction holds, and all groups but its own, survive a commit.
  lemma CommitHolds(db: Db, req: CapacityRequest, obs: Observed, pick: Pick, tx: Tx)
    requires Sound(db) && Admits(db, req, obs, pick) && TxOk(db, tx) && tx.req.group != req.group
    ensures var d, db' := Retarget(db, req, db.groups[req.group]), Commit(db, req, db.groups[req.group], pick);
      db'.groups == d.groups && db'.requests == d.requests && db'.pools == db.pools &&
      RowsHeld(db, db', OpsHeld(tx), OpsHeld(tx) + HostsHeld(tx))
  {
    hide Sound, Linked, Used, Late, Fits, AddIntents, CancelWith, PickOk, Cancellable, RowsHeld, TxOk, Early;
    var g := db.groups[req.group];
    var d := Retarget(db, req, g);
    var db' := Commit(db, req, g, pick);
    RetargetKeepsSound(db, req, obs.enabled);
    SoundLinked(d);
    hide Refusal;
    if Delta(g, req) > 0 {
      OpsBelowNext(d);
      HostsBelowNext(d);
      IntentsHold(d, req.group, g, Wrap(g.revision + 1), Delta(g, req));
      HoldAll(db, db', OpsHeld(tx), OpsHeld(tx) + HostsHeld(tx));
    } else if Delta(g, req) < 0 {
      PickTransfer(db, d, req.group, -Delta(g, req), pick);
      PickFrame(d, pick);
      PickHoldsRows(db, d, req.group, -Delta(g, req), pick, tx);
    } else {
      HoldAll(db, db', OpsHeld(tx), OpsHeld(tx) + HostsHeld(tx));
    }
  }

  lemma CommitSpares(db: Db, req: CapacityRequest, obs: Observed, pick: Pick, tx: Tx)
    requires Sound(db) && Admits(db, req, obs, pick) && TxOk(db, tx) && tx.req.group != req.group
    requires !tx.GroupLocked? ==> tx.g.pool != db.groups[req.group].pool
    ensures Spared(db, Commit(db, req, db.groups[req.group], pick), tx)
  {
    hide Sound, Linked, Used, Late, Fits, Commit, PickOk, Cancellable, RowsHeld;
    if !tx.GroupLocked? { CommitElsewhere(db, req, obs, pick, tx.g.pool); }
    CommitHolds(db, req, obs, pick, tx);
  }

  lemma HoldAll(db: Db, db': Db, ops: set<Id>, hosts: set<Id>)
    requires forall o :: o in db.ops ==> o in db'.ops && db'.ops[o] == db.ops[o]
    requires forall h :: h in db.hosts ==> h in db'.hosts && db'.hosts[h] == db.hosts[h]
    ensures RowsHeld(db, db', ops, hosts)
  {
  }

  lemma HoldThese(db: Db, db': Db, ops: set<Id>, hosts: set<Id>)
    requires ops <= hosts
    requires forall h :: h in hosts ==> h in db'.hosts && h in db.hosts && db'.hosts[h] == db.hosts[h]
    requires forall h :: h in hosts ==> h in db'.ops && h in db.ops && db'.ops[h] == db.ops[h]
    ensures RowsHeld(db, db', ops, hosts)
  {
  }

  // The rows a transaction holds belong to its own group.
  lemma HeldGroup(db: Db, tx: Tx, h: Id)
    requires Sound(db) && TxOk(db, tx) && h in OpsHeld(tx) + HostsHeld(tx)
    ensures h in db.hosts && db.hosts[h].group == tx.req.group
  {
    hide Sound, Linked, Early, Late, Used, Cancellable, Markable, CancelOps;
    SoundLinked(db);
    CancellableHosts(db, tx.req.group);
    if tx.Marking? { MarkableRow(db, tx.req.group, tx.cancel, h); }
  }

  // ---------- Refinement ----------

  function AdmitOf(tx: Tx): Event
    requires CanFinish(tx)
  {
    Admit(tx.req, Observed(tx.enabled, tx.registered), PickOf(tx))
  }

  // Committing from remembered values is the atomic transaction at this moment.
  lemma FinishRefines(s: Split, k: nat)
    requires Sound(s.w.db) && k in s.txs && CanFinish(s.txs[k]) && TxOk(s.w.db, s.txs[k])
    ensures var tx := s.txs[k];
      Admits(s.w.db, tx.req, Observed(tx.enabled, tx.registered), PickOf(tx)) &&
      Finished(s, k) == Split(Apply(s.w, AdmitOf(tx)), s.txs - {k}) &&
      Finished(s, k).w.db == Commit(s.w.db, tx.req, tx.g, PickOf(tx))
  {
    hide Sound, Linked, Early, Late, Used, Cancellable, Markable, CancelOps, Commit;
    var tx := s.txs[k];
    EarlyGroup(s.w.db, tx.req, tx.enabled);
    assert PickOf(tx).cancel <= s.w.db.ops.Keys;
  }

  lemma EarlyGroup(db: Db, req: CapacityRequest, enabled: bool)
    requires Early(db, req, enabled).None?
    ensures req.group in db.groups && db.groups[req.group].pool in db.pools
  {
  }

  lemma FinishStays(s: Split, k: nat, j: nat)
    requires Safe(s.w) && Consistent(s) && k in s.txs && CanFinish(s.txs[k]) && j in s.txs && j != k
    ensures TxOk(Finished(s, k).w.db, s.txs[j])
  {
    SafeSound(s.w);
    FinishRefines(s, k);
    var tx := s.txs[k];
    StepSafe(s.w, AdmitOf(tx));
    SafeSound(Apply(s.w, AdmitOf(tx)));
    hide Safe, Sound, Apply, TxOk, Spared, Commit, Admits;
    OwnGroup(s.w.db, tx);
    CommitSpares(s.w.db, tx.req, Observed(tx.enabled, tx.registered), PickOf(tx), s.txs[j]);
    TxStays(s.w.db, Finished(s, k).w.db, s.txs[j]);
  }

  lemma OwnGroup(db: Db, tx: Tx)
    requires TxOk(db, tx)
    ensures tx.req.group in db.groups && tx.g == db.groups[tx.req.group]
  {
  }

  // No other transaction holds the locks this one has or takes.
  predicate Apart(txs: map<nat, Tx>, k: nat, tx: Tx) {
    forall j :: j in txs && j != k ==>
      txs[j].req.group != tx.req.group && (!txs[j].GroupLocked? && !tx.GroupLocked? ==> txs[j].g.pool != tx.g.pool)
  }

  lemma PutKeeps(s: Split, k: nat, tx: Tx)
    requires Consistent(s) && TxOk(s.w.db, tx) && Apart(s.txs, k, tx)
    ensures Consistent(Put(s, k, tx))
  {
    hide TxOk;
  }

  lemma StatementsKeep(s: Split, step: Step)
    requires Consistent(s) && !step.Finish? && !step.Other?
    ensures Consistent(Advance(s, step)) && Advance(s, step).w == s.w
  {
    hide Disjoint, TxOk, Early, Used, Late, Cancellable, PickOk, RegisteredHosts, GroupHeld, PoolHeld;
    if step.Begin? { BeginKeeps(s, step); } else if step.LockPool? { LockKeeps(s, step); } else if step.Abort? { DropKeeps(s, step.tx); } else {
      NextKeeps(s, step);
    }
  }

  lemma DropKeeps(s: Split, k: nat)
    requires Consistent(s)
    ensures Consistent(Drop(s, k))
  {
    hide TxOk;
  }

  lemma BeginKeeps(s: Split, step: Step)
    requires Consistent(s) && step.Begin?
    ensures Consistent(Advance(s, step))
  {
    hide Early, TxOk, Consistent;
    EarlyBegin(s.w.db, step.req, step.enabled);
    if Advance(s, step) != s {
      forall j | j in s.txs ensures s.txs[j].req.group != step.req.group { assert !HoldsGroup(s.txs[j], step.req.group); }
      PutKeeps(s, step.tx, GroupLocked(step.req, step.enabled, s.w.db.groups[step.req.group]));
    }
  }

  lemma LockKeeps(s: Split, step: Step)
    requires Consistent(s) && step.LockPool?
    ensures Consistent(Advance(s, step))
  {
    hide Early;
    if Advance(s, step) != s {
      var tx := s.txs[step.tx];
      forall j | j in s.txs && !s.txs[j].GroupLocked? ensures s.txs[j].g.pool != tx.g.pool { assert !HoldsPool(s.txs[j], tx.g.pool); }
      PutKeeps(s, step.tx, PoolLocked(tx.req, tx.enabled, tx.g, s.w.db.pools[tx.g.pool].limit));
    }
  }

  lemma NextKeeps(s: Split, step: Step)
    requires Consistent(s) && (step.Check? || step.Choose? || step.Mark?)
    ensures Consistent(Advance(s, step))
  {
    hide Early, Used, Late, Cancellable, PickOk, RegisteredHosts, Disjoint, TxOk;
    var s' := Advance(s, step);
    if s' != s {
      var tx := s.txs[step.tx];
      if step.tx !in s'.txs {
        DropKeeps(s, step.tx);
      } else {
        var tx' := s'.txs[step.tx];
        NextApart(s, step.tx, tx');
        if step.Check? { CheckedOk(s.w.db, tx); } else { PickedOk(s.w.db, tx, tx'); }
        PutKeeps(s, step.tx, tx');
      }
    }
  }

  lemma NextApart(s: Split, k: nat, tx: Tx)
    requires Consistent(s) && k in s.txs && !s.txs[k].GroupLocked? && tx.req == s.txs[k].req && tx.g == s.txs[k].g
    ensures Apart(s.txs, k, tx)
  {
    hide TxOk;
  }

  lemma CheckedOk(db: Db, tx: Tx)
    requires TxOk(db, tx) && tx.PoolLocked?
    ensures var registered := RegisteredHosts(db, tx.req.group);
      Late(tx.g, tx.limit, Used(db, tx.g.pool), tx.req, registered).None? ==> TxOk(db, Checked(tx.req, tx.enabled, tx.g, registered))
  {
    hide Early, Used, Late, RegisteredHosts, Cancellable, PickOk;
  }

  lemma PickedOk(db: Db, tx: Tx, tx': Tx)
    requires TxOk(db, tx)
    requires (tx.Checked? && tx'.Cancelling? && tx'.cancel <= Cancellable(db, tx.req.group)) ||
      (tx.Cancelling? && tx'.Marking? && tx'.cancel == tx.cancel && PickOk(db, tx.req.group, -Delta(tx.g, tx.req), Pick(tx.cancel, tx'.mark)))
    requires tx'.req == tx.req && tx'.enabled == tx.enabled && tx'.g == tx.g && tx'.registered == tx.registered
    ensures TxOk(db, tx')
  {
    hide Early, Used, Late, RegisteredHosts, Cancellable, PickOk;
  }

  lemma EarlyBegin(db: Db, req: CapacityRequest, enabled: bool)
    ensures Early(db, req, enabled).None? && TypedRequest(req) ==> req.group in db.groups && TxOk(db, GroupLocked(req, enabled, db.groups[req.group]))
  {
  }

  lemma OtherKeeps(s: Split, e: Event)
    requires Safe(s.w) && Consistent(s) && !Blocked(s, e)
    ensures Consistent(s.(w := Apply(s.w, e)))
  {
    hide Safe, Apply, TxOk, Blocked;
    forall k | k in s.txs ensures TxOk(Apply(s.w, e).db, s.txs[k]) { OtherStays(s, e, k); }
  }

  lemma FinishKeeps(s: Split, k: nat)
    requires Safe(s.w) && Consistent(s) && k in s.txs && CanFinish(s.txs[k])
    ensures Consistent(Finished(s, k)) && Finished(s, k).w == Apply(s.w, AdmitOf(s.txs[k]))
  {
    hide Safe, Sound, Apply, TxOk, Finished, Admits, CanFinish;
    SafeSound(s.w);
    FinishRefines(s, k);
    forall j | j in s.txs - {k} ensures TxOk(Finished(s, k).w.db, s.txs[j]) { FinishStays(s, k, j); }
  }

  // The atomic event, if any, that a step amounts to.
  function EventsOf(s: Split, step: Step): seq<Event> {
    match step
    case Finish(k) => if k in s.txs && CanFinish(s.txs[k]) then [AdmitOf(s.txs[k])] else []
    case Other(e) => if Blocked(s, e) then [] else [e]
    case _ => []
  }

  lemma StepRefines(s: Split, step: Step)
    requires Safe(s.w) && Consistent(s)
    ensures Consistent(Advance(s, step)) && Advance(s, step).w == Run(s.w, EventsOf(s, step))
  {
    hide Safe, Consistent, Apply, Blocked, CanFinish;
    match step {
      case Finish(k) =>
        if k in s.txs && CanFinish(s.txs[k]) {
          FinishKeeps(s, k);
          RunOne(s.w, AdmitOf(s.txs[k]));
        }
      case Other(e) =>
        if !Blocked(s, e) {
          OtherKeeps(s, e);
          RunOne(s.w, e);
        }
      case _ => StatementsKeep(s, step);
    }
  }

  lemma RunOne(w: World, e: Event)
    ensures Run(w, [e]) == Apply(w, e)
  {
    hide Apply;
    assert [e][..0] == [];
    assert Run(w, [e][..0]) == w;
  }

  function EventsOfAll(s: Split, steps: seq<Step>): seq<Event> {
    if steps == [] then []
    else
      var before := steps[..|steps| - 1];
      EventsOfAll(s, before) + EventsOf(Play(s, before), steps[|steps| - 1])
  }

  // Every interleaving of any number of SetTarget transactions, statement by statement, with
  // controllers, removals, claims and crashes is a run of the atomic machine.
  lemma {:induction false} InterleavingsAreRuns(steps: seq<Step>)
    ensures Consistent(Play(IDLE, steps))
    ensures Play(IDLE, steps).w == Run(START, EventsOfAll(IDLE, steps))
  {
    if steps != [] {
      hide Safe, Consistent, Advance, Apply;
      var before := steps[..|steps| - 1];
      InterleavingsAreRuns(before);
      Reachable(EventsOfAll(IDLE, before));
      StepRefines(Play(IDLE, before), steps[|steps| - 1]);
      RunSplit(START, EventsOfAll(IDLE, before), EventsOf(Play(IDLE, before), steps[|steps| - 1]));
    }
  }

  // So in every state of every interleaving the unreleased reservations of all groups sharing a
  // pool stay within its limits.
  lemma InterleavedPoolsNeverExceeded(steps: seq<Step>, p: string)
    requires p in Play(IDLE, steps).w.db.pools
    ensures AtMost(Used(Play(IDLE, steps).w.db, p), Play(IDLE, steps).w.db.pools[p].limit)
  {
    hide Play, Core, Workers, WriteAhead, Used;
    InterleavingsAreRuns(steps);
    Reachable(EventsOfAll(IDLE, steps));
  }
}
