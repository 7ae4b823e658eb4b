// The registered-capacity guard can be overtaken: an interleaving from the empty store in which a
// decrease passes the guard, the group's only host registers before the commit, and the committed
// target is below the number of registered hosts. When its statements run they find nothing to
// cancel and nothing to mark.

module Overtaken {
  import opened Options
  import opened Int64
  import opened Counting
  import opened Capacity
  import opened Admission
  import opened Coupling
  import opened AdmissionSound
  import opened Progress
  import opened Protocol
  import opened Safety
  import opened Guarantees
  import opened Accounting
  import opened Locks
  import opened Guard
  import opened Drain
  import opened Witness

  // ---------- Interleavings ----------

  lemma {:induction false} PlaySplit(s: Split, a: seq<Step>, b: seq<Step>)
    ensures Play(s, a + b) == Play(Play(s, a), b)
  {
    hide Advance;
    if b == [] {
      assert a + b == a;
    } else {
      assert (a + b)[..|a + b| - 1] == a + b[..|b| - 1];
      PlaySplit(s, a, b[..|b| - 1]);
    }
  }

  lemma PlayOne(s: Split, steps: seq<Step>, step: Step)
    ensures Play(s, steps + [step]) == Advance(Play(s, steps), step)
  {
    hide Advance;
    assert (steps + [step])[..|steps|] == steps;
  }

  function Others(es: seq<Event>): seq<Step> {
    if es == [] then [] else Others(es[..|es| - 1]) + [Other(es[|es| - 1])]
  }

  lemma NothingBlocked(s: Split, e: Event)
    requires s.txs == map[] && !e.Admit?
    ensures !Blocked(s, e)
  {
  }

  // With no transaction open, everything but an admission is an atomic event.
  lemma {:induction false} PlayOthers(s: Split, es: seq<Event>)
    requires s.txs == map[] && forall i :: 0 <= i < |es| ==> !es[i].Admit?
    ensures Play(s, Others(es)) == s.(w := Run(s.w, es))
  {
    hide Apply, Blocked;
    if es != [] {
      var before, e := es[..|es| - 1], es[|es| - 1];
      PlayOthers(s, before);
      PlayOne(s, Others(before), Other(e));
      NothingBlocked(Play(s, Others(before)), e);
    }
  }

  lemma CallsAdmitNothing(w: World, es: seq<Event>, o: Id, owner: string, d: int, x: Executor)
    requires Ongoing(w, es, o, owner, d, x)
    ensures forall i :: 0 <= i < |es| ==> !es[i].Admit?
  {
    hide Run, LeaseKept;
    forall i | 0 <= i < |es| ensures !es[i].Admit? {
      if i > 0 { assert Faithful(Run(w, es[..i]), es[i], es[0].worker, d, x); }
    }
  }

  // ---------- One transaction by itself ----------

  // Its statements up to the check, with nothing in between.
  function Opening(k: nat, req: CapacityRequest): seq<Step> { [Begin(k, req, true), LockPool(k), Check(k)] }

  lemma NoneHeld(s: Split, gid: string)
    requires s.txs == map[]
    ensures !GroupHeld(s, gid)
  {
  }

  lemma OwnPoolFree(w: World, k: nat, tx: Tx, pool: string)
    requires tx.GroupLocked?
    ensures !PoolHeld(Split(w, map[k := tx]), pool)
  {
  }

  lemma Opened(w: World, k: nat, req: CapacityRequest)
    requires TypedRequest(req) && Early(w.db, req, true).None?
    requires Late(w.db.groups[req.group], w.db.pools[w.db.groups[req.group].pool].limit,
                  Used(w.db, w.db.groups[req.group].pool), req, RegisteredHosts(w.db, req.group)).None?
    ensures Play(Split(w, map[]), Opening(k, req)) ==
      Split(w, map[k := Checked(req, true, w.db.groups[req.group], RegisteredHosts(w.db, req.group))])
  {
    hide Early, Late, Used, RegisteredHosts, GroupHeld, PoolHeld, Apply, Blocked, TypedRequest;
    EarlyGroup(w.db, req, true);
    var s, g := Split(w, map[]), w.db.groups[req.group];
    NoneHeld(s, req.group);
    var a := Advance(s, Begin(k, req, true));
    assert a == Split(w, map[k := GroupLocked(req, true, g)]);
    OwnPoolFree(w, k, GroupLocked(req, true, g), g.pool);
    var b := Advance(a, LockPool(k));
    assert b == Split(w, map[k := PoolLocked(req, true, g, w.db.pools[g.pool].limit)]);
    var c := Advance(b, Check(k));
    assert c == Split(w, map[k := Checked(req, true, g, RegisteredHosts(w.db, req.group))]);
    hide Advance;
    assert Opening(k, req)[..2] == [Begin(k, req, true), LockPool(k)] && Opening(k, req)[..2][..1] == [Begin(k, req, true)];
    PlayOne(s, [], Begin(k, req, true));
    assert [] + [Begin(k, req, true)] == [Begin(k, req, true)];
    PlayOne(s, [Begin(k, req, true)], LockPool(k));
    assert [Begin(k, req, true)] + [LockPool(k)] == [Begin(k, req, true), LockPool(k)];
    PlayOne(s, [Begin(k, req, true), LockPool(k)], Check(k));
    assert [Begin(k, req, true), LockPool(k)] + [Check(k)] == Opening(k, req);
  }

  lemma FinishAlone(w: World, k: nat, tx: Tx)
    requires Sound(w.db) && TxOk(w.db, tx) && CanFinish(tx)
    ensures Advance(Split(w, map[k := tx]), Finish(k)) == Split(Apply(w, AdmitOf(tx)), map[])
  {
    hide Sound, TxOk, Apply, CanFinish, Finished;
    FinishRefines(Split(w, map[k := tx]), k);
    assert map[k := tx] - {k} == map[];
  }

  // ---------- One host, booting ----------

  lemma GrowsByOne(n: Names)
    requires Given(n)
    ensures var db, req := Furnished(n), Increase(n);
      TypedRequest(req) && Early(db, req, true).None? && req.group in db.groups && db.groups[req.group] == Policy(n) && Policy(n).pool in db.pools &&
      RegisteredHosts(db, req.group) == 0 && Delta(Policy(n), req) >= 0 &&
      Late(Policy(n), db.pools[Policy(n).pool].limit, Used(db, Policy(n).pool), req, 0).None?
  {
    hide Wrap, Fits, Used;
    Wraps();
    NotRefused(n);
  }

  // The set-up and the admission of one node, statement by statement.
  lemma OneNodeAdmitted(n: Names) returns (steps: seq<Step>)
    requires Given(n)
    ensures Play(IDLE, steps).txs == map[] && Play(IDLE, steps).w.db == Enlarged(n) && Play(IDLE, steps).w.workers == map[]
  {
    hide Apply, Furnished, Enlarged, Early, Late, Used, RegisteredHosts, Delta, Advance, Play, Policy, Run, Safe, Sound, TxOk, Consistent;
    var es := FurnishedRun(n);
    PlayOthers(IDLE, es);
    var w, req := START.(db := Furnished(n)), Increase(n);
    GrowsByOne(n);
    Opened(w, 0, req);
    PlaySplit(IDLE, Others(es), Opening(0, req));
    var a := Others(es) + Opening(0, req);
    var tx := Checked(req, true, Policy(n), 0);
    Interleaved(a);
    SafeSound(w);
    OneTx(Play(IDLE, a), 0);
    FinishAlone(w, 0, tx);
    steps := a + [Finish(0)];
    PlayOne(IDLE, a, Finish(0));
    AdmitOne(n);
  }

  lemma OneTx(s: Split, k: nat)
    requires Consistent(s) && k in s.txs
    ensures TxOk(s.w.db, s.txs[k])
  {
    hide TxOk;
  }

  // The group with its one host, whatever that host has reached.
  predicate Scene(n: Names, db: Db) {
    db.pools == Enlarged(n).pools && db.groups == Enlarged(n).groups && db.requests == Enlarged(n).requests && db.next == 1 &&
    db.ops.Keys == {0} && db.hosts.Keys == {0} && db.resv.Keys == {0} && db.ops[0].host == 0 && db.hosts[0].group == n.group
  }

  lemma SceneStarts(n: Names)
    ensures Scene(n, Enlarged(n)) && HasRow(Enlarged(n), 0) && RowOf(Enlarged(n), 0).host.state.Requested?
  {
  }

  lemma SceneKept(n: Names, db: Db, d: Db)
    requires Scene(n, db) && Framed(db, d, 0)
    ensures Scene(n, d)
  {
  }

  // What RunOnce finds at rest: host 0 of the group, still to be brought on.
  ghost predicate Restful(n: Names, w: World) {
    Drainable(w, n.zone, n.owner, LEASE, EXECUTOR) && 0 in Unfinished(w.db, n.zone) && Scene(n, w.db)
  }

  lemma RestfulVisit(n: Names, w: World)
    requires Restful(n, w)
    ensures Visitable(w, 0, n.owner, EXECUTOR) && Outstanding(w.db, 0, n.zone) && Linked(w.db) && Safe(w)
  {
    hide Drainable, Visitable, Scene, Unfinished, Linked, Safe, Outstanding;
    DrainableVisit(w, n.zone, n.owner, LEASE, EXECUTOR, 0);
    DrainableSound(w, n.zone, n.owner, LEASE, EXECUTOR);
  }

  lemma StartsRestful(n: Names, w: World)
    requires Safe(w) && w.db == Enlarged(n) && w.workers == map[]
    ensures Restful(n, w) && HasRow(w.db, 0) && RowOf(w.db, 0).host.state.Requested?
  {
    hide Safe, Scene, Enlarged, Resting, Unfinished, HasRow;
    Rests(w, n);
    SceneStarts(n);
  }

  // One call brings the host to BOOTING.
  lemma BootsOnce(n: Names, w: World) returns (es: seq<Event>)
    requires Restful(n, w) && HasRow(w.db, 0) && RowOf(w.db, 0).host.state.Requested?
    ensures forall i :: 0 <= i < |es| ==> !es[i].Admit?
    ensures Restful(n, Run(w, es)) && HasRow(Run(w, es).db, 0) && RowOf(Run(w, es).db, 0).host.state.Booting?
  {
    hide Run, Drainable, Visitable, Scene, Unfinished, Linked, Safe, Ongoing, Advanced, Narrowed, HasRow;
    RestfulVisit(n, w);
    es := SomeCall(w, 0, 0, n.owner, LEASE, EXECUTOR);
    CallsAdmitNothing(w, es, 0, n.owner, LEASE, EXECUTOR);
    EveryCallAdvances(w, es, 0, n.owner, LEASE, EXECUTOR);
    CallNarrows(w, Run(w, es), n.zone, n.owner, LEASE, EXECUTOR, 0);
    NarrowedDrainable(w, Run(w, es), n.zone, n.owner, LEASE, EXECUTOR);
    DrainableSound(Run(w, es), n.zone, n.owner, LEASE, EXECUTOR);
    AdvancedOnce(w.db, Run(w, es).db, n.zone);
    SceneKept(n, w.db, Run(w, es).db);
  }

  lemma AdvancedOnce(db: Db, d: Db, z: string)
    requires Linked(db) && Outstanding(db, 0, z) && Advanced(db, d, 0, EXECUTOR) && RowOf(db, 0).host.state.Requested? && Sound(d)
    ensures Framed(db, d, 0) && HasRow(d, 0) && RowOf(d, 0).host.state.Booting? && 0 in Unfinished(d, z)
  {
    hide Linked, Sound, PutRow, Version, Agrees, Unfinished, DistanceOf;
    SelfMoves(db, d, 0, z, EXECUTOR);
    FramedHost(db, d, 0);
    UnfinishedMeansAway(d, z, 0);
    AwayTwo(db, z);
  }

  lemma AwayTwo(db: Db, z: string)
    requires 0 in db.ops && 0 in db.hosts && db.ops[0].zone == z && db.hosts[0].state.Requested?
    ensures DistanceOf(db, z)(0) == 3
  {
  }

  // ---------- About to register ----------

  // A controller about to move the booting host to REGISTERING, and able to.
  ghost predicate Poised(n: Names, w: World) {
    Safe(w) && Scene(n, w.db) && w.db.hosts[0].state.Booting? && 0 in w.workers && w.workers == map[0 := w.workers[0]] &&
    w.workers[0].AtBooting? && w.workers[0].t.op == 0 && w.workers[0].t.host == 0 &&
    Permits(w.db, w.workers[0].t, SetState(Booting, Registering)) &&
    var d := Perform(w.db, w.workers[0].t, SetState(Booting, Registering));
    Scene(n, d) && d.hosts[0].state.Registering? && Active(d.ops[0])
  }

  lemma TakenPc(w: World, o: Id, owner: string, d: int)
    requires 0 in ApplyTake(w, 0, o, owner, d).workers && w.workers == map[]
    ensures ApplyTake(w, 0, o, owner, d).workers[0].Claimed?
  {
    hide Claimable, Locked, Claim;
  }

  lemma ReadPc(w0: World, w: World, owner: string)
    requires HasRow(w0.db, 0) && InCall(w0, w, 0, 0, owner, EXECUTOR) && 0 in w.workers && w.workers[0].Claimed?
    requires RowOf(w0.db, 0).host.state.Booting?
    ensures 0 in ApplyReadHost(w, 0).workers && ApplyReadHost(w, 0).workers[0].AtBooting?
  {
    hide PutRow, Version, Agrees;
  }

  lemma PoisedIf(n: Names, w0: World, w: World)
    requires Visitable(w0, 0, n.owner, EXECUTOR) && HasRow(w0.db, 0) && Scene(n, w0.db) && RowOf(w0.db, 0).host.state.Booting?
    requires Safe(w) && InCall(w0, w, 0, 0, n.owner, EXECUTOR) && 0 in w.workers && w.workers[0].AtBooting? && LeaseKept(w, 0)
    ensures Poised(n, w)
  {
    hide Safe, Visitable, LeaseKept, PutRow, Version, Agrees, Scene, Permits, Perform, Sound;
    SafeSound(w);
    VisitFacts(w0, 0, n.owner, EXECUTOR);
    WriteLands(w0, w, 0, 0, n.owner, EXECUTOR);
    SceneKept(n, w0.db, w.db);
    SceneKept(n, w0.db, Perform(w.db, w.workers[0].t, SetState(Booting, Registering)));
    SceneHost(n, w.db);
    SceneHost(n, Perform(w.db, w.workers[0].t, SetState(Booting, Registering)));
  }

  lemma SceneHost(n: Names, db: Db)
    requires Scene(n, db) && HasRow(db, 0)
    ensures 0 in db.hosts && 0 in db.ops && RowOf(db, 0).host == db.hosts[0] && RowOf(db, 0).op == db.ops[0]
  {
  }

  lemma GetsPoised(n: Names, w: World) returns (es: seq<Event>)
    requires Restful(n, w) && HasRow(w.db, 0) && RowOf(w.db, 0).host.state.Booting?
    ensures (forall i :: 0 <= i < |es| ==> !es[i].Admit?) && Poised(n, Run(w, es))
  {
    hide Apply, Drainable, Visitable, Scene, Unfinished, Linked, Safe, InCall, Poised, ApplyTake, ApplyReadHost, Onward,
      Fresh, LeaseKept, HasRow, Faithful, Progresses;
    RestfulVisit(n, w);
    NothingLocked(w, 0, n.owner, EXECUTOR);
    TakeStarts(w, 0, 0, n.owner, LEASE, EXECUTOR);
    var take, read := Take(0, 0, n.owner, LEASE), ReadHost(0);
    EventIs(w, take);
    var a := ApplyTake(w, 0, 0, n.owner, LEASE);
    TakenPc(w, 0, n.owner, LEASE);
    var one := Then(w, [], w, take, a);
    RunSafe(w, one);
    TakeFresh(w, a, n);
    FreshKept(w, a, 0, 0, n.owner, LEASE, EXECUTOR);
    EventIs(a, read);
    ReadPc(w, a, n.owner);
    var b := ApplyReadHost(a, 0);
    NextIsFaithful(a, 0, LEASE, EXECUTOR);
    CallStep(w, a, read, 0, 0, n.owner, LEASE, EXECUTOR);
    NextOnward(w, a, b, 0, 0, n.owner, LEASE, EXECUTOR);
    FreshKept(w, b, 0, 0, n.owner, LEASE, EXECUTOR);
    es := Then(w, one, a, read, b);
    RunSafe(w, es);
    hide Run;
    PoisedIf(n, w, b);
  }

  lemma TakeFresh(w: World, a: World, n: Names)
    requires a.db.clock == w.db.clock && 0 in a.db.ops && a.db.ops[0].lease == Some(Lease(n.owner, w.db.clock + LEASE))
    ensures Fresh(w, a, 0, 0, n.owner, LEASE)
  {
  }

  // ---------- The decrease ----------

  // Back to no node, under another request identifier.
  function Decrease(n: Names): CapacityRequest { CapacityRequest(n.group, n.request + n.request, n.cluster, 1, 0, n.template) }

  lemma ShrinksByOne(n: Names, db: Db)
    requires Given(n) && Scene(n, db) && !IsRegistered(db.hosts[0].state)
    ensures var req := Decrease(n);
      TypedRequest(req) && Early(db, req, true).None? && n.group in db.groups &&
      Delta(db.groups[n.group], req) < 0 && db.groups[n.group].pool in db.pools &&
      RegisteredHosts(db, n.group) == 0 &&
      Late(db.groups[n.group], db.pools[db.groups[n.group].pool].limit, Used(db, db.groups[n.group].pool), req, 0).None?
  {
    hide Used, Fits;
    var req := Decrease(n);
    Wraps();
    assert Wrap(0 - 1) == -1;
    assert |req.request| > |n.request|;
    assert KeyOf(req) != KeyOf(Increase(n));
    assert Sum(RegisteredOf(db, n.group), 0) == 0;
  }

  lemma SceneRegistered(n: Names, db: Db)
    requires Scene(n, db) && db.hosts[0].state.Registering? && Active(db.ops[0])
    ensures RegisteredHosts(db, n.group) == 1 && Cancellable(db, n.group) == {} && Markable(db, n.group) == {}
  {
    assert Sum(RegisteredOf(db, n.group), 0) == 0;
  }

  // The write goes through while the transaction is open.
  lemma RegistersNow(s: Split, k: nat)
    requires k in s.w.workers && s.w.workers == map[k := s.w.workers[k]] && s.w.workers[k].AtBooting?
    requires Permits(s.w.db, s.w.workers[k].t, SetState(Booting, Registering)) && forall j :: j in s.txs ==> s.txs[j].Checked?
    ensures Advance(s, Other(Issue(k))).txs == s.txs
    ensures Advance(s, Other(Issue(k))).w.db == Perform(s.w.db, s.w.workers[k].t, SetState(Booting, Registering))
  {
    hide Apply, Permits, Perform, ApplyIssue;
    EventIs(s.w, Issue(k));
    IssuedWorld(s.w, k);
  }

  lemma UnpickedSteps(s: Split, k: nat)
    requires k in s.txs && s.txs[k].Checked? && Delta(s.txs[k].g, s.txs[k].req) < 0
    ensures var tx, t := s.txs[k], Advance(Advance(s, Choose(k, {})), Mark(k, {}));
      t.w == s.w && k in t.txs && t.txs[k] == Marking(tx.req, tx.enabled, tx.g, tx.registered, {}, {})
  {
    hide Delta, Used, Late, Early, Cancellable, PickOk, RegisteredHosts, Finished, GroupHeld, PoolHeld, Blocked, Apply;
    var tx := s.txs[k];
    EmptyPick(s.w.db, tx.req.group, -Delta(tx.g, tx.req));
    var a := Advance(s, Choose(k, {}));
    assert a.txs[k] == Cancelling(tx.req, tx.enabled, tx.g, tx.registered, {}) && a.w == s.w;
  }

  lemma UnpickedFinish(s: Split, k: nat)
    requires k in s.txs && s.txs[k].Marking? && s.txs[k].cancel == {} && s.txs[k].mark == {}
    requires Delta(s.txs[k].g, s.txs[k].req) < 0 && s.txs[k].req.group in s.w.db.groups
    ensures Advance(s, Finish(k)).w.db == Commit(s.w.db, s.txs[k].req, s.txs[k].g, Pick({}, {}))
  {
    hide Delta, Commit, Wrap;
  }

  // A decrease that cancels and marks nothing only lowers the target.
  lemma Unpicked(s: Split, k: nat)
    requires Consistent(s) && k in s.txs && s.txs[k].Checked? && Delta(s.txs[k].g, s.txs[k].req) < 0
    ensures var tx := s.txs[k];
      var db := Play(s, [Choose(k, {}), Mark(k, {}), Finish(k)]).w.db;
      tx.req.group in db.groups && db.groups[tx.req.group].target == tx.req.desired &&
      RegisteredHosts(db, tx.req.group) == RegisteredHosts(s.w.db, tx.req.group)
  {
    hide Consistent, TxOk, Delta, RegisteredHosts, Commit, Advance, Play;
    var tx := s.txs[k];
    OneTx(s, k);
    OwnGroup(s.w.db, tx);
    UnpickedSteps(s, k);
    UnpickedFinish(Advance(Advance(s, Choose(k, {})), Mark(k, {})), k);
    UnpickedCommit(s.w.db, tx.req, tx.g);
    PlayThree(s, Choose(k, {}), Mark(k, {}), Finish(k));
  }

  lemma PlayThree(s: Split, a: Step, b: Step, c: Step)
    ensures Play(s, [a, b, c]) == Advance(Advance(Advance(s, a), b), c)
  {
    hide Advance;
    assert [a, b, c] == [] + [a] + [b] + [c];
    PlayOne(s, [], a);
    PlayOne(s, [] + [a], b);
    PlayOne(s, [] + [a] + [b], c);
  }

  lemma EmptyPick(db: Db, gid: string, count: int)
    requires count >= 0
    ensures PickOk(db, gid, count, Pick({}, {})) && {} <= Cancellable(db, gid)
  {
  }

  lemma UnpickedCommit(db: Db, req: CapacityRequest, g: Group)
    requires req.group in db.groups && Delta(g, req) < 0
    ensures var d := Commit(db, req, g, Pick({}, {}));
      req.group in d.groups && d.groups[req.group].target == req.desired && RegisteredHosts(d, req.group) == RegisteredHosts(db, req.group)
  {
    var d := Commit(db, req, g, Pick({}, {}));
    assert d.next == db.next;
    SumSame(RegisteredOf(db, req.group), RegisteredOf(d, req.group), db.next);
  }

  // From the empty store to an open decrease that has passed the guard and been overtaken.
  lemma Overtakes(n: Names) returns (steps: seq<Step>)
    requires Given(n)
    ensures var s := Play(IDLE, steps);
      0 in s.txs && s.txs[0].Checked? && s.txs[0].req == Decrease(n) && Delta(s.txs[0].g, s.txs[0].req) < 0 &&
      RegisteredHosts(s.w.db, n.group) == 1 && Cancellable(s.w.db, n.group) == {} && Markable(s.w.db, n.group) == {}
  {
    hide Apply, Enlarged, Restful, Scene, Early, Late, Used, RegisteredHosts, Delta, Advance, Play, Run, Safe, Permits,
      Perform, HasRow, Cancellable, Markable, Consistent, TypedRequest;
    var a := OneNodeAdmitted(n);
    Interleaved(a);
    var w := Play(IDLE, a).w;
    StartsRestful(n, w);
    var boot := BootsOnce(n, w);
    var poise := GetsPoised(n, Run(w, boot));
    PlayOthers(Play(IDLE, a), boot);
    PlayOthers(Split(Run(w, boot), map[]), poise);
    PlaySplit(IDLE, a, Others(boot));
    PlaySplit(IDLE, a + Others(boot), Others(poise));
    var b := a + Others(boot) + Others(poise);
    var p := Run(Run(w, boot), poise);
    assert Play(IDLE, b) == Split(p, map[]);
    ShrinksByOne(n, p.db);
    Opened(p, 0, Decrease(n));
    PlaySplit(IDLE, b, Opening(0, Decrease(n)));
    var c := b + Opening(0, Decrease(n));
    RegistersNow(Play(IDLE, c), 0);
    PlayOne(IDLE, c, Other(Issue(0)));
    steps := c + [Other(Issue(0))];
    SceneRegistered(n, Play(IDLE, steps).w.db);
  }

  // The only rows the decrease can still pick are none, and its commit leaves fewer target nodes
  // than registered hosts.
  lemma DecreaseCanUndercut(n: Names) returns (steps: seq<Step>)
    requires Given(n)
    ensures var s := Play(IDLE, steps);
      0 in s.txs && s.txs[0].Checked? && s.txs[0].req == Decrease(n) && Cancellable(s.w.db, n.group) == {} && Markable(s.w.db, n.group) == {}
    ensures var db := Play(IDLE, steps + [Choose(0, {}), Mark(0, {}), Finish(0)]).w.db;
      n.group in db.groups && db.groups[n.group].target < RegisteredHosts(db, n.group)
  {
    hide Play, Safe, Consistent, Delta, RegisteredHosts, Cancellable, Markable;
    steps := Overtakes(n);
    Interleaved(steps);
    Unpicked(Play(IDLE, steps), 0);
    PlaySplit(IDLE, steps, [Choose(0, {}), Mark(0, {}), Finish(0)]);
  }
}
