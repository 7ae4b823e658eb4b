// What a committed target change writes, row by row and column by column.

module Columns {
  import opened Options
  import opened Int64
  import opened Selection
  import opened Capacity
  import opened Admission
  import opened Coupling
  import opened AdmissionSound
  import opened Protocol

  // ---------- An increase ----------

  // Row o after adding count intents: a new record for each identifier from next on, all else as it was.
  ghost predicate AddedAt(db: Db, d: Db, gid: string, g: Group, count: nat, o: Id) {
    if db.next <= o < db.next + count then
      o in d.ops && d.ops[o] == Op(Provision, g.zone, gid, o, g.revision + 1, g.template, Pending, None, 0, "") &&
      o in d.hosts && d.hosts[o] == Host(gid, o, Requested, "", "", false, g.template, "") &&
      o in d.resv && d.resv[o] == Reservation(gid, g.vcpu, g.memory, Reserved)
    else
      (o in d.ops <==> o in db.ops) && (o in db.ops ==> d.ops[o] == db.ops[o]) &&
      (o in d.hosts <==> o in db.hosts) && (o in db.hosts ==> d.hosts[o] == db.hosts[o]) &&
      (o in d.resv <==> o in db.resv) && (o in db.resv ==> d.resv[o] == db.resv[o])
  }

  lemma {:induction false} IntentsAddedAt(db: Db, gid: string, g: Group, count: nat, o: Id)
    ensures var d := AddIntents(db, gid, g, g.revision + 1, count); d.next == db.next + count && AddedAt(db, d, gid, g, count, o)
  {
    if count > 0 { IntentsAddedAt(db, gid, g, count - 1, o); }
  }

  lemma {:induction false} IntentsFrameAll(db: Db, gid: string, g: Group, revision: int, count: nat)
    ensures var d := AddIntents(db, gid, g, revision, count); d == db.(next := d.next, ops := d.ops, hosts := d.hosts, resv := d.resv)
  {
    if count > 0 { IntentsFrameAll(db, gid, g, revision, count - 1); }
  }

  // The group row and the stored request, whatever the change.
  ghost function Retargeted(db: Db, req: CapacityRequest): Db
    requires req.group in db.groups
  {
    var g := db.groups[req.group];
    db.(groups := db.groups[req.group := g.(target := req.desired, revision := g.revision + 1)],
        requests := db.requests[RequestKey(req.group, req.request) := StoredRequest(req, g.revision + 1)])
  }

  lemma AdmittedShape(db: Db, req: CapacityRequest, obs: Observed, pick: Pick)
    requires Sound(db) && Admits(db, req, obs, pick)
    ensures Early(db, req, obs.enabled).None?
    ensures req.group in db.groups && pick.cancel <= db.ops.Keys && Retarget(db, req, db.groups[req.group]) == Retargeted(db, req)
    ensures var g := db.groups[req.group];
      Delta(g, req) == req.desired - g.target && Wrap(g.revision + 1) == g.revision + 1 && SetTarget(db, req, obs, pick).0 == Commit(db, req, g, pick)
  {
    hide Sound, Used, Fits, PickOk, Plus, Scale;
    NoOverflow(db, req, obs.enabled);
  }

  // An admitted increase adds one provision operation, one requested host and one reservation, of
  // the group's zone, template and resources, for each added node, and nothing else.
  lemma IncreaseWrites(db: Db, req: CapacityRequest, obs: Observed, pick: Pick)
    requires Sound(db) && Admits(db, req, obs, pick) && req.group in db.groups && req.desired > db.groups[req.group].target
    ensures var g, d := db.groups[req.group], SetTarget(db, req, obs, pick).0;
      var count := req.desired - g.target;
      d == Retargeted(db, req).(next := db.next + count, ops := d.ops, hosts := d.hosts, resv := d.resv) &&
      forall o: Id :: AddedAt(db, d, req.group, g, count, o)
  {
    hide Sound, Admits, SetTarget, Commit, AddIntents, Delta, Wrap;
    AdmittedShape(db, req, obs, pick);
    var g := db.groups[req.group];
    var count := req.desired - g.target;
    var mid := Retargeted(db, req);
    CommitUp(db, req, g, pick);
    IntentsFrameAll(mid, req.group, g, g.revision + 1, count);
    var d := SetTarget(db, req, obs, pick).0;
    forall o: Id ensures AddedAt(db, d, req.group, g, count, o) { IntentsAddedAt(mid, req.group, g, count, o); }
    IntentsAddedAt(mid, req.group, g, count, 0);
  }

  lemma CommitUp(db: Db, req: CapacityRequest, g: Group, pick: Pick)
    requires req.group in db.groups && pick.cancel <= db.ops.Keys && Delta(g, req) > 0
    ensures Commit(db, req, g, pick) == AddIntents(Retarget(db, req, g), req.group, g, Wrap(g.revision + 1), Delta(g, req))
  {
    hide Wrap, Delta, AddIntents, Retarget;
  }

  // ---------- A decrease ----------

  // What cancelPending may cancel: pending, unleased, and not launched.
  ghost predicate Idle(db: Db, gid: string, o: Id) {
    o in db.ops && o in db.hosts && db.ops[o].kind == Provision && db.ops[o].group == gid && db.ops[o].state == Pending && db.ops[o].lease == None &&
    db.hosts[o].state in {Requested, Provisioning}
  }

  // What it may mark: live, not registered, not marked, not just cancelled.
  ghost predicate Spare(db: Db, gid: string, cancelled: set<Id>, h: Id) {
    h in db.hosts && h !in cancelled && db.hosts[h].group == gid && !db.hosts[h].excess && db.hosts[h].state in {Requested, Provisioning, Booting}
  }

  lemma IdleIsCancellable(db: Db, gid: string, o: Id)
    requires Linked(db)
    ensures o in Cancellable(db, gid) <==> Idle(db, gid, o)
  {
    if o in db.ops { assert LinkedOp(db, o); }
    if o in db.hosts { assert LinkedHost(db, o); }
    hide Linked;
  }

  lemma LiveIsNotCancelled(db: Db, h: Id)
    requires Sound(db) && h in db.hosts && db.hosts[h].state in {Requested, Provisioning, Booting}
    ensures h in db.ops && db.hosts[h].op == h && !db.ops[h].state.Cancelled?
  {
    hide PoolBound, Typed, NodesDistinct, Evidence;
    LinkedHasRow(db, h);
    assert RowOk(RowOf(db, h), h);
  }

  lemma MarkableAt(db: Db, gid: string, cancelled: set<Id>, h: Id)
    requires Linked(db) && cancelled <= db.hosts.Keys && cancelled <= db.ops.Keys && h in db.hosts
    ensures db.hosts[h].op == h && h in db.ops
    ensures IsMarkable(CancelOps(db, cancelled), gid, h) <==>
      h !in cancelled && db.hosts[h].group == gid && !db.hosts[h].excess &&
      (db.hosts[h].state.Requested? || db.hosts[h].state.Provisioning? || db.hosts[h].state.Booting?) && !db.ops[h].state.Cancelled?
  {
    HostsAreOps(db, cancelled);
    assert LinkedHost(db, h);
    hide Linked;
  }

  lemma SpareIsMarkable(db: Db, gid: string, cancelled: set<Id>, h: Id)
    requires Sound(db) && cancelled <= Cancellable(db, gid) && cancelled <= db.ops.Keys
    ensures h in Markable(CancelOps(db, cancelled), gid) <==> Spare(db, gid, cancelled, h)
  {
    hide Sound, Cancellable, IsMarkable;
    SoundHolds(db);
    CancellableHosts(db, gid);
    hide Linked;
    if h in db.hosts {
      MarkableAt(db, gid, cancelled, h);
      if db.hosts[h].state in {Requested, Provisioning, Booting} { LiveIsNotCancelled(db, h); }
    }
  }

  // Row o after a decrease.
  ghost predicate CutAt(db: Db, d: Db, pick: Pick, o: Id) {
    (o in d.ops <==> o in db.ops) && (o in d.hosts <==> o in db.hosts) && (o in d.resv <==> o in db.resv) &&
    (o in db.ops ==>
      d.ops[o] == if o in pick.cancel then db.ops[o].(state := Cancelled, fence := db.ops[o].fence + 1) else db.ops[o]) &&
    (o in db.hosts ==>
      var h := db.hosts[o];
      d.hosts[o] == h.(state := if o in pick.cancel then Terminated else h.state, excess := h.excess || o in pick.mark)) &&
    (o in db.resv ==> d.resv[o] == if o in pick.cancel then db.resv[o].(state := Released) else db.resv[o])
  }

  lemma CancelledAt(db: Db, gid: string, pick: Pick, o: Id)
    requires Linked(db) && pick.cancel <= Cancellable(db, gid) && pick.cancel <= db.ops.Keys
    ensures CutAt(db, CancelWith(db, pick), pick, o)
  {
    CancellableHosts(db, gid);
    HostsAreOps(db, pick.cancel);
    assert HostsOf(db, pick.cancel) == pick.cancel;
    hide Linked, Cancellable;
  }

  lemma CancelFrameAll(db: Db, pick: Pick)
    requires pick.cancel <= db.ops.Keys
    ensures var d := CancelWith(db, pick); d == db.(ops := d.ops, hosts := d.hosts, resv := d.resv)
  {
  }

  // An admitted decrease cancels idle operations with their hosts and credits, marks spare hosts, at
  // most as many together as it takes off the target, and touches no other row.
  lemma DecreaseWrites(db: Db, req: CapacityRequest, obs: Observed, pick: Pick)
    requires Sound(db) && Admits(db, req, obs, pick) && req.group in db.groups && req.desired < db.groups[req.group].target
    ensures var g, d := db.groups[req.group], SetTarget(db, req, obs, pick).0;
      |pick.cancel| + |pick.mark| <= g.target - req.desired &&
      (forall o :: o in pick.cancel ==> Idle(db, req.group, o)) && (forall h :: h in pick.mark ==> Spare(db, req.group, pick.cancel, h)) &&
      d == Retargeted(db, req).(ops := d.ops, hosts := d.hosts, resv := d.resv) && forall o: Id :: CutAt(db, d, pick, o)
  {
    hide Sound, SetTarget, Commit, CancelWith, Delta, Wrap, Linked, Cancellable, Markable, CancelOps, Refusal, Idle, Spare;
    AdmittedShape(db, req, obs, pick);
    SoundHolds(db);
    RetargetKeepsSound(db, req, obs.enabled);
    var g := db.groups[req.group];
    var mid := Retargeted(db, req);
    SoundHolds(mid);
    CommitDown(db, req, g, pick);
    CancellableSame(db, mid, req.group);
    CancelFrameAll(mid, pick);
    forall o | o in pick.cancel ensures Idle(db, req.group, o) { IdleIsCancellable(db, req.group, o); }
    forall h | h in pick.mark ensures Spare(db, req.group, pick.cancel, h) { SpareIsMarkable(db, req.group, pick.cancel, h); }
    var d := SetTarget(db, req, obs, pick).0;
    forall o: Id ensures CutAt(db, d, pick, o) { CancelledAt(mid, req.group, pick, o); }
  }

  lemma SoundHolds(db: Db)
    requires Sound(db)
    ensures Linked(db)
  {
  }

  lemma CancellableSame(db: Db, d: Db, gid: string)
    requires d.ops == db.ops && d.hosts == db.hosts && d.resv == db.resv
    ensures Cancellable(d, gid) == Cancellable(db, gid)
  {
  }

  lemma CommitDown(db: Db, req: CapacityRequest, g: Group, pick: Pick)
    requires req.group in db.groups && pick.cancel <= db.ops.Keys && Delta(g, req) < 0
    ensures Commit(db, req, g, pick) == CancelWith(Retarget(db, req, g), pick)
  {
    hide Wrap, Delta, CancelWith, Retarget;
  }

  // A request for the present target only raises the revision.
  lemma EqualWrites(db: Db, req: CapacityRequest, obs: Observed, pick: Pick)
    requires Sound(db) && Admits(db, req, obs, pick) && req.group in db.groups && req.desired == db.groups[req.group].target
    ensures SetTarget(db, req, obs, pick).0 == Retargeted(db, req)
  {
    hide Sound, Refusal;
    AdmittedShape(db, req, obs, pick);
  }

  // Undisturbed, cancelPending takes the newest idle operations and then the newest spare hosts, as
  // many as there are up to the count.
  ghost function IdleOps(db: Db, gid: string): set<Id> { set o | o in db.ops && Idle(db, gid, o) }
  ghost function SpareHosts(db: Db, gid: string, cancelled: set<Id>): set<Id> { set h | h in db.hosts && Spare(db, gid, cancelled, h) }

  ghost predicate IsNewest(chosen: set<Id>, all: set<Id>, count: nat) {
    chosen <= all && |chosen| == (if count < |all| then count else |all|) &&
    forall x, y :: x in chosen && y in all && y !in chosen ==> y < x
  }

  lemma NewestPicked(db: Db, gid: string, count: nat)
    requires Sound(db)
    ensures var pick := NewestPick(db, gid, count);
      IsNewest(pick.cancel, IdleOps(db, gid), count) &&
      |pick.cancel| <= count && IsNewest(pick.mark, SpareHosts(db, gid, pick.cancel), count - |pick.cancel|)
  {
    hide Sound, Linked, Cancellable, Markable, CancelOps, Idle, Spare;
    SoundHolds(db);
    var pick := NewestPick(db, gid, count);
    forall o ensures o in Cancellable(db, gid) <==> o in IdleOps(db, gid) {
      IdleIsCancellable(db, gid, o);
      IdleRow(db, gid, o);
    }
    assert Cancellable(db, gid) == IdleOps(db, gid);
    forall h ensures h in Markable(CancelOps(db, pick.cancel), gid) <==> h in SpareHosts(db, gid, pick.cancel) {
      SpareIsMarkable(db, gid, pick.cancel, h);
      SpareRow(db, gid, pick.cancel, h);
    }
    assert Markable(CancelOps(db, pick.cancel), gid) == SpareHosts(db, gid, pick.cancel);
  }

  lemma IdleRow(db: Db, gid: string, o: Id)
    ensures Idle(db, gid, o) ==> o in db.ops
  {
  }

  lemma SpareRow(db: Db, gid: string, cancelled: set<Id>, h: Id)
    ensures Spare(db, gid, cancelled, h) ==> h in db.hosts
  {
  }
}
