// Progress: whatever a crash left behind, a Dominator whose executor succeeds finishes every
// unfinished provision operation of its zone (internal/capacity/provision_worker.go). Every complete
// RunOnce call brings the oldest of them exactly one stage closer to READY, so every sequence of
// as many calls as the summed distance leaves all of them READY.

module Drain {
  import opened Options
  import opened Int64
  import opened Counting
  import opened Capacity
  import opened Admission
  import opened Coupling
  import opened Progress
  import opened Protocol
  import opened Safety
  import opened Guarantees

  // RunOnce calls still needed.
  function Distance(s: HostState): int {
    match s
    case Requested => 3
    case Provisioning => 3
    case Booting => 2
    case Registering => 2
    case Converging => 1
    case _ => 0
  }

  // Where one successful call leaves a host it found in s.
  function NextStop(s: HostState): HostState {
    match s
    case Requested => Booting
    case Provisioning => Booting
    case Booting => Converging
    case Registering => Converging
    case Converging => Ready
    case _ => s
  }

  // ---------- A succeeding executor ----------

  // For each host it reports one provider identity, one Node and one expected state, the same at
  // every retry.
  datatype Executor = Executor(
    provider: Id -> string, node: Id -> string, identity: Id -> NodeIdentity, pin: Id -> Expected)

  predicate AnswersFor(x: Executor, o: Id) {
    x.provider(o) != "" && x.identity(o).name == o && x.identity(o).uid != "" && x.identity(o).provider != "" &&
    |x.identity(o).contract| == 64 && x.pin(o).revision == 1 && x.pin(o).version != "" && |x.pin(o).version| <= 128
  }

  ghost predicate Obliging(db: Db, x: Executor) {
    (forall o: Id :: AnswersFor(x, o)) &&
    (forall a: Id, b: Id :: a != b ==> x.identity(a).uid != x.identity(b).uid) &&
    (forall h :: h in db.bindings ==> db.bindings[h].node == x.identity(h)) &&
    (forall h :: h in db.hosts ==> db.hosts[h].node == "" || db.hosts[h].node == x.node(h))
  }

  // What it answers where the controller waits for it.
  function Answer(pc: Pc, x: Executor): Option<Outcome> {
    match pc
    case Launch(t) => Some(Launched(x.provider(t.op), x.node(t.op)))
    case AtRegistering(t) => Some(JoinedAs(x.identity(t.op)))
    case Bound(t) => Some(Resolved(x.pin(t.op)))
    case Delivering(_) => Some(Delivered)
    case AtConverging(_, _) => Some(Readiness(true))
    case _ => None
  }

  // ---------- A complete RunOnce call ----------

  // What may happen during a call of controller k: its own steps, each answer the executor's, its
  // renewals, the passing of time and the landing of Kubernetes updates, in any order.
  predicate Faithful(w: World, e: Event, k: nat, d: int, x: Executor) {
    match e
    case Tick(_) => true
    case Land(_) => true
    case ReadHost(j) => j == k
    case Issue(j) => j == k
    case Open(j) => j == k
    case Lift(j) => j == k
    case Confirm(j) => j == k
    case Extend(j, lease) => j == k && lease == d
    case Return(j, out) => j == k && (k in w.workers ==> Answer(w.workers[k], x) == Some(out))
    case _ => false
  }

  // The controller keeps its lease, with the second that opening the handoff asks for.
  predicate LeaseKept(w: World, k: nat) {
    k in w.workers ==>
      var pc := w.workers[k];
      pc.t.op in w.db.ops && w.db.ops[pc.t.op].lease.Some? &&
      w.db.ops[pc.t.op].lease.value.until > w.db.clock + (if pc.Prepared? then 1000 else 0)
  }

  // A call that has claimed o and gone on from there.
  ghost predicate Ongoing(w: World, es: seq<Event>, o: Id, owner: string, d: int, x: Executor) {
    |es| > 0 && es[0].Take? && es[0] == Take(es[0].worker, o, owner, d) &&
    (forall i :: 0 < i < |es| ==> Faithful(Run(w, es[..i]), es[i], es[0].worker, d, x)) &&
    (forall i :: 0 < i <= |es| ==> LeaseKept(Run(w, es[..i]), es[0].worker))
  }

  // It has returned.
  ghost predicate CompleteCall(w: World, es: seq<Event>, o: Id, owner: string, d: int, x: Executor) {
    Ongoing(w, es, o, owner, d, x) && Run(w, es).workers == map[]
  }

  // ---------- One record, everything else untouched ----------

  // The rows reachable from the stored one by a controller's writes.
  predicate Version(db: Db, o: Id, r: Row) {
    HasRow(db, o) && SameIdentity(RowOf(db, o), r) && KeepsNode(RowOf(db, o), r)
  }

  lemma PutPut(db: Db, o: Id, r: Row, r': Row)
    requires Linked(db) && Version(db, o, r) && Version(db, o, r') && KeepsNode(r, r')
    ensures HasRow(PutRow(db, o, r), o) && RowOf(PutRow(db, o, r), o) == r
    ensures PutRow(PutRow(db, o, r), o, r') == PutRow(db, o, r')
  {
    PutSelf(db, o, r);
    assert LinkedOp(db, o);
    var d := PutRow(db, o, r);
    assert d.ops[o := r'.op] == db.ops[o := r'.op];
    assert d.hosts[o := r'.host] == db.hosts[o := r'.host];
    assert d.resv[o := r'.resv] == db.resv[o := r'.resv];
    if r'.binding.Some? { assert d.bindings[o := r'.binding.value] == db.bindings[o := r'.binding.value]; }
  }

  // d is db with another version of record o and a later clock.
  predicate Framed(db: Db, d: Db, o: Id) {
    HasRow(d, o) && Version(db, o, RowOf(d, o)) && db.clock <= d.clock && d == PutRow(db, o, RowOf(d, o)).(clock := d.clock)
  }

  lemma FramedSame(db: Db, o: Id)
    requires HasRow(db, o)
    ensures Framed(db, db, o)
  {
    var h := db.ops[o].host;
    assert db.ops[o := db.ops[o]] == db.ops && db.hosts[h := db.hosts[h]] == db.hosts && db.resv[h := db.resv[h]] == db.resv;
    if h in db.bindings { assert db.bindings[h := db.bindings[h]] == db.bindings; }
  }

  lemma PutClock(db: Db, o: Id, r: Row, c: int)
    requires HasRow(db, o)
    ensures PutRow(db.(clock := c), o, r) == PutRow(db, o, r).(clock := c)
  {
  }

  lemma FramedWrite(db: Db, d: Db, o: Id, r: Row)
    requires Linked(db) && Framed(db, d, o) && SameIdentity(RowOf(d, o), r) && KeepsNode(RowOf(d, o), r)
    ensures HasRow(PutRow(d, o, r), o) && RowOf(PutRow(d, o, r), o) == r && Framed(db, PutRow(d, o, r), o)
  {
    hide PutRow, Linked;
    var was := RowOf(d, o);
    PutPut(db, o, was, r);
    PutPut(db, o, r, r);
    var base := PutRow(db, o, was);
    PutClock(base, o, r, d.clock);
    assert PutRow(d, o, r) == PutRow(db, o, r).(clock := d.clock);
    ClockRow(PutRow(db, o, r), o, d.clock);
  }

  lemma ClockRow(db: Db, o: Id, c: int)
    requires HasRow(db, o)
    ensures HasRow(db.(clock := c), o) && RowOf(db.(clock := c), o) == RowOf(db, o)
  {
  }

  lemma FramedTick(db: Db, d: Db, o: Id, c: int)
    requires Framed(db, d, o) && d.clock <= c
    ensures Framed(db, d.(clock := c), o)
  {
    hide PutRow;
    ClockRow(d, o, c);
  }

  // Outside the record only the clock moves.
  lemma FramedElsewhere(db: Db, d: Db, o: Id)
    requires Linked(db) && Framed(db, d, o)
    ensures o in db.ops && o in d.ops && d.ops[o].group == db.ops[o].group && d.groups == db.groups && d.members == db.members
    ensures d.zones == db.zones && d.clusters == db.clusters && d.dominators == db.dominators
    ensures forall h :: h != o ==> (h in d.bindings <==> h in db.bindings) && (h in db.bindings ==> d.bindings[h] == db.bindings[h])
  {
    assert LinkedOp(db, o);
    hide Linked;
  }

  // The facts outside the record that its writes read are the ones of db.
  lemma FramedSite(db: Db, d: Db, o: Id, t: Token, w: Write)
    requires Linked(db) && Framed(db, d, o) && t.op == o && t.host == o
    ensures SiteOf(d, t, w) == SiteOf(db, t, w).(now := d.clock)
  {
    hide Linked, PutRow, Version;
    FramedElsewhere(db, d, o);
  }

  // ---------- Where a call stands ----------

  // The Dominator may claim the operation, and its zone and cluster are ready.
  predicate Serviceable(db: Db, o: Id, owner: string) {
    Claimable(db, o, owner) && TopologyReady(db, db.ops[o].group)
  }

  // What the drain assumes of an operation when RunOnce claims it.
  ghost predicate Visitable(w: World, o: Id, owner: string, x: Executor) {
    Safe(w) && w.workers == map[] && Serviceable(w.db, o, owner) && Obliging(w.db, x)
  }

  function TokenFor(db: Db, o: Id, owner: string): Token
    requires o in db.ops
  {
    Token(o, o, owner, db.ops[o].fence + 1)
  }

  // The record and the controller's position, after a call that found the host in state s.
  predicate Placed(pc: Pc, r: Row, s: HostState, x: Executor) {
    match pc
    case Claimed(_) => r.host.state == s
    case AtLaunch(_, requested) => r.host.state == s && Distance(s) == 3 && requested == s.Requested?
    case Begun(_) => r.host.state.Requested? && r.op.state.Launching? && Distance(s) == 3
    case Launch(_) => r.host.state.Provisioning? && r.op.state.Launching? && Distance(s) == 3
    case Allocated(t, p, n) =>
      r.host.state.Provisioning? && r.op.state.Launching? && Distance(s) == 3 && p == x.provider(t.op) && n == x.node(t.op)
    case AtBooting(_) => r.host.state.Booting? && Distance(s) == 2
    case AtRegistering(_) => r.host.state.Registering? && Distance(s) == 2
    case Joined(t, n) => r.host.state.Registering? && Distance(s) == 2 && n == x.identity(t.op)
    case Bound(_) => r.host.state.Registering? && Distance(s) == 2 && r.binding.Some?
    case Pinning(t, e) => r.host.state.Registering? && Distance(s) == 2 && r.binding.Some? && e == x.pin(t.op)
    case Delivering(_) => r.host.state.Registering? && Distance(s) == 2
    case Enrolled(_) => r.host.state.Registering? && Distance(s) == 2
    case AtConverging(_, v) => r.host.state.Converging? && s.Converging? && v == r.host.desired
    case Judged(_, v) => r.host.state.Converging? && s.Converging? && v == r.host.desired
    case Prepared(_, v) => Releasing(r, s, v)
    case Finalizing(_, v) => Releasing(r, s, v)
    case Lifting(_, v) => Releasing(r, s, v)
    case Lifted(_, v) => Releasing(r, s, v)
    case Failing(_, _) => false
    case Yielding(_) => r.host.state == NextStop(s) && 2 <= Distance(s)
  }

  predicate Releasing(r: Row, s: HostState, v: string) {
    r.host.state.Converging? && s.Converging? && v == r.host.desired && r.binding.Some? && r.binding.value.released
  }

  predicate Agrees(r: Row, o: Id, x: Executor) {
    (r.binding.Some? ==> r.binding.value.node == x.identity(o)) && (r.host.node == "" || r.host.node == x.node(o))
  }

  // The lease of the call's own claim.
  predicate Leased(r: Row, t: Token) {
    r.op.host == t.host && t.host == t.op && r.op.fence == t.fence && Active(r.op) && r.op.lease.Some? && r.op.lease.value.owner == t.owner
  }

  // A call that has ended left the host at its next stop, free to be claimed again or finished.
  predicate Stopped(r: Row, s: HostState) {
    r.host.state == NextStop(s) && (r.host.state.Ready? || (r.op.lease.None? && (r.op.state.Pending? || r.op.state.Launching?)))
  }

  ghost predicate InCall(w0: World, w: World, k: nat, o: Id, owner: string, x: Executor)
    requires HasRow(w0.db, o)
  {
    Framed(w0.db, w.db, o) &&
    var r, s := RowOf(w.db, o), RowOf(w0.db, o).host.state;
    r.op.zone == w0.db.ops[o].zone && Agrees(r, o, x) &&
    if w.workers == map[] then Stopped(r, s)
    else
      k in w.workers && w.workers == map[k := w.workers[k]] && w.workers[k].t == TokenFor(w0.db, o, owner) &&
      Leased(r, w.workers[k].t) && Placed(w.workers[k], r, s, x) && (w.workers[k].Lifting? ==> o in w.inflight)
  }

  // ---------- Every step of a call ----------

  function AllGranted(now: int): Site { Site(now, true, true, true, true) }

  lemma BindingOwner(db: Db, h: Id)
    requires Sound(db) && h in db.bindings && h in db.hosts
    ensures db.bindings[h].op == h
  {
    hide PoolBound, Typed, NodesDistinct;
    LinkedHasRow(db, h);
    assert RowOk(RowOf(db, h), h);
  }

  lemma SiteGood(w: World, o: Id, owner: string, x: Executor, t: Token, write: Write)
    requires Visitable(w, o, owner, x) && t.op == o && t.host == o && t.owner == owner
    requires write.BindNode? ==> write.identity == x.identity(o)
    ensures HasRow(w.db, o) && SiteOf(w.db, t, write) == AllGranted(w.db.clock)
  {
    hide PoolBound, Typed, NodesDistinct, RowOk, TopologyReady, MemberReady, DominatorOf, Free;
    if write.BindNode? {
      forall h | h in w.db.bindings && h != o ensures w.db.bindings[h].node.uid != write.identity.uid && w.db.bindings[h].op != o {
        LinkedHasRow(w.db, h);
        BindingOwner(w.db, h);
      }
    }
  }

  // Whatever the controller writes next is permitted, and moves the record as the stage wants.
  lemma WritePermitted(pc: Pc, r: Row, s: HostState, x: Executor, now: int)
    requires WriteAt(pc).Some? && Placed(pc, r, s, x) && Leased(r, pc.t) && r.op.lease.value.until > now
    requires RowOk(r, pc.t.op) && Agrees(r, pc.t.op, x) && AnswersFor(x, pc.t.op)
    ensures RowPermits(r, pc.t, WriteAt(pc).value, AllGranted(now))
  {
  }

  lemma WriteKeeps(pc: Pc, r: Row, s: HostState, x: Executor, now: int)
    requires WriteAt(pc).Some? && Placed(pc, r, s, x) && Leased(r, pc.t) && Agrees(r, pc.t.op, x)
    requires RowPermits(r, pc.t, WriteAt(pc).value, AllGranted(now))
    ensures var r' := Effect(r, pc.t, WriteAt(pc).value, AllGranted(now));
      Agrees(r', pc.t.op, x) && r'.op.zone == r.op.zone &&
      (After(pc).Some? ==> After(pc).value.t == pc.t && Leased(r', pc.t) && r'.op.lease == r.op.lease)
  {
  }

  lemma WriteMoves(pc: Pc, r: Row, s: HostState, x: Executor, now: int)
    requires WriteAt(pc).Some? && Placed(pc, r, s, x) && Leased(r, pc.t)
    requires RowPermits(r, pc.t, WriteAt(pc).value, AllGranted(now))
    ensures var r' := Effect(r, pc.t, WriteAt(pc).value, AllGranted(now));
      if After(pc).None? then Stopped(r', s) else Placed(After(pc).value, r', s, x)
  {
  }

  // How far a controller is from the end of its call.
  function Togo(pc: Pc, lifted: bool): nat {
    match pc
    case Claimed(_) => 20
    case AtLaunch(_, _) => 19
    case Begun(_) => 18
    case Launch(_) => 17
    case Allocated(_, _, _) => 16
    case AtBooting(_) => 15
    case AtRegistering(_) => 14
    case Joined(_, _) => 13
    case Bound(_) => 12
    case Pinning(_, _) => 11
    case Delivering(_) => 10
    case Enrolled(_) => 9
    case AtConverging(_, _) => 8
    case Judged(_, _) => 7
    case Prepared(_, _) => 6
    case Finalizing(_, _) => 5
    case Lifting(_, _) => if lifted then 3 else 4
    case Lifted(_, _) => 2
    case Failing(_, _) => 2
    case Yielding(_) => 1
  }

  function Left(w: World, k: nat): nat {
    if k in w.workers then Togo(w.workers[k], w.workers[k].t.host in w.lifted) else 0
  }

  // The step a controller takes next when it is not interrupted.
  function NextStep(w: World, k: nat, x: Executor): Event
    requires k in w.workers
  {
    var pc := w.workers[k];
    if pc.Claimed? then ReadHost(k)
    else if pc.Prepared? then Open(k)
    else if pc.Finalizing? then Lift(k)
    else if pc.Lifting? then (if pc.t.host in w.lifted then Confirm(k) else Land(pc.t.host))
    else if Answer(pc, x).Some? then Return(k, Answer(pc, x).value)
    else Issue(k)
  }

  // What one step of a call leaves: still in the call, no further from its end, and nearer when
  // the step was the controller's next one.
  ghost predicate Onward(w0: World, w: World, w': World, e: Event, k: nat, o: Id, owner: string, x: Executor)
    requires HasRow(w0.db, o) && k in w.workers
  {
    InCall(w0, w', k, o, owner, x) && Left(w', k) <= Left(w, k) &&
    (e == NextStep(w, k, x) ==> Left(w', k) < Left(w, k) && SameLease(w, w', k, o))
  }

  predicate SameLease(w: World, w': World, k: nat, o: Id) {
    w'.db.clock == w.db.clock && (k in w'.workers ==> o in w.db.ops && o in w'.db.ops && w'.db.ops[o].lease == w.db.ops[o].lease)
  }

  lemma StepIs(w: World, e: Event)
    ensures e.Lift? ==> Apply(w, e) == ApplyLift(w, e.worker)
    ensures e.Confirm? ==> Apply(w, e) == ApplyConfirm(w, e.worker)
    ensures e.Extend? ==> Apply(w, e) == ApplyExtend(w, e.worker, e.lease)
    ensures e.Return? && e.worker in w.workers ==> Apply(w, e) == Goto(w, e.worker, Returned(w.workers[e.worker], e.outcome))
    ensures e.Land? ==> Apply(w, e) == if e.host in w.inflight then w.(lifted := w.lifted + {e.host}) else w
    ensures e.Tick? ==> Apply(w, e) == w.(db := w.db.(clock := w.db.clock + e.elapsed))
  {
    hide ApplyLift, ApplyConfirm, ApplyExtend, Returned;
  }

  lemma Ticks(w0: World, w: World, w': World, e: Event, k: nat, o: Id, owner: string, x: Executor)
    requires HasRow(w0.db, o) && InCall(w0, w, k, o, owner, x) && k in w.workers
    requires e.Tick? && w' == w.(db := w.db.(clock := w.db.clock + e.elapsed))
    ensures Onward(w0, w, w', e, k, o, owner, x)
  {
    hide PutRow, Placed, Agrees, Version;
    FramedTick(w0.db, w.db, o, w.db.clock + e.elapsed);
    ClockRow(w.db, o, w.db.clock + e.elapsed);
  }

  lemma Lands(w0: World, w: World, w': World, e: Event, k: nat, o: Id, owner: string, x: Executor)
    requires HasRow(w0.db, o) && InCall(w0, w, k, o, owner, x) && k in w.workers
    requires e.Land? && w' == if e.host in w.inflight then w.(lifted := w.lifted + {e.host}) else w
    ensures Onward(w0, w, w', e, k, o, owner, x)
  {
    hide PutRow, Placed, Agrees, Version, Leased;
  }

  lemma AnswerMoves(pc: Pc, r: Row, s: HostState, x: Executor, out: Outcome, lifted: bool)
    requires Placed(pc, r, s, x) && Answer(pc, x) == Some(out)
    ensures Returned(pc, out).Some? && Returned(pc, out).value.t == pc.t && Placed(Returned(pc, out).value, r, s, x)
    ensures Togo(Returned(pc, out).value, lifted) < Togo(pc, lifted) && !Returned(pc, out).value.Lifting?
  {
  }

  lemma DispatchMoves(t: Token, r: Row, s: HostState, x: Executor, lifted: bool)
    requires Placed(Claimed(t), r, s, x) && Distance(s) > 0
    ensures Dispatch(t, r.host).Some? && Dispatch(t, r.host).value.t == t && Placed(Dispatch(t, r.host).value, r, s, x)
    ensures Togo(Dispatch(t, r.host).value, lifted) < Togo(Claimed(t), lifted) && !Dispatch(t, r.host).value.Lifting?
  {
  }

  // A step that only moves the controller.
  lemma MoveOnward(w0: World, w: World, w': World, e: Event, k: nat, o: Id, owner: string, x: Executor, pc: Pc)
    requires HasRow(w0.db, o) && InCall(w0, w, k, o, owner, x) && k in w.workers
    requires w' == Goto(w, k, Some(pc)).(inflight := w'.inflight)
    requires pc.t == w.workers[k].t && Placed(pc, RowOf(w.db, o), RowOf(w0.db, o).host.state, x)
    requires pc.Lifting? ==> o in w'.inflight
    requires Togo(pc, pc.t.host in w.lifted) < Togo(w.workers[k], pc.t.host in w.lifted)
    ensures Onward(w0, w, w', e, k, o, owner, x)
  {
    hide PutRow, Version, Placed, Agrees, Togo, NextStep, Leased;
    assert w.workers[k := pc] == map[k := pc];
  }

  // A step that is not the controller's to take now.
  lemma StayOnward(w0: World, w: World, w': World, e: Event, k: nat, o: Id, owner: string, x: Executor)
    requires HasRow(w0.db, o) && InCall(w0, w, k, o, owner, x) && k in w.workers && w' == w && e != NextStep(w, k, x)
    ensures Onward(w0, w, w', e, k, o, owner, x)
  {
    hide InCall, Togo, NextStep;
  }

  lemma Reads(w0: World, w: World, w': World, e: Event, k: nat, o: Id, owner: string, x: Executor)
    requires HasRow(w0.db, o) && InCall(w0, w, k, o, owner, x) && k in w.workers && Distance(RowOf(w0.db, o).host.state) > 0
    requires e == ReadHost(k) && w' == ApplyReadHost(w, k)
    ensures Onward(w0, w, w', e, k, o, owner, x)
  {
    hide PutRow, Version, Placed, Agrees, Dispatch, Distance, Togo, Onward;
    var pc, r := w.workers[k], RowOf(w.db, o);
    if pc.Claimed? {
      DispatchMoves(pc.t, r, RowOf(w0.db, o).host.state, x, pc.t.host in w.lifted);
      MoveOnward(w0, w, w', e, k, o, owner, x, Dispatch(pc.t, r.host).value);
    } else {
      StayOnward(w0, w, w', e, k, o, owner, x);
    }
  }

  lemma Hears(w0: World, w: World, w': World, e: Event, k: nat, o: Id, owner: string, x: Executor)
    requires HasRow(w0.db, o) && InCall(w0, w, k, o, owner, x) && k in w.workers
    requires e.Return? && e.worker == k && Answer(w.workers[k], x) == Some(e.outcome)
    requires w' == Goto(w, k, Returned(w.workers[k], e.outcome))
    ensures Onward(w0, w, w', e, k, o, owner, x)
  {
    hide PutRow, Version, Placed, Agrees, Returned, Togo, Onward, Leased, Answer;
    var pc := w.workers[k];
    AnswerMoves(pc, RowOf(w.db, o), RowOf(w0.db, o).host.state, x, e.outcome, pc.t.host in w.lifted);
    MoveOnward(w0, w, w', e, k, o, owner, x, Returned(pc, e.outcome).value);
  }

  // The handoff stages of one record differ only in the controller's position.
  lemma ReleaseMoves(pc: Pc, pc': Pc, r: Row, s: HostState, x: Executor)
    requires Placed(pc, r, s, x) && pc'.t == pc.t
    requires pc.Prepared? || pc.Finalizing? || pc.Lifting?
    requires pc' == (if pc.Prepared? then Finalizing(pc.t, pc.version)
                     else if pc.Finalizing? then Lifting(pc.t, pc.version)
                     else Lifted(pc.t, pc.version))
    ensures Placed(pc', r, s, x) && forall lifted :: Togo(pc', lifted) < Togo(pc, lifted)
  {
  }

  lemma Lifts(w0: World, w: World, w': World, e: Event, k: nat, o: Id, owner: string, x: Executor)
    requires HasRow(w0.db, o) && InCall(w0, w, k, o, owner, x) && k in w.workers
    requires (e == Lift(k) && w' == ApplyLift(w, k)) || (e == Confirm(k) && w' == ApplyConfirm(w, k))
    ensures Onward(w0, w, w', e, k, o, owner, x)
  {
    hide PutRow, Version, Placed, Agrees, Togo, Onward, Leased;
    var pc, r, s := w.workers[k], RowOf(w.db, o), RowOf(w0.db, o).host.state;
    if e.Lift? && pc.Finalizing? {
      ReleaseMoves(pc, Lifting(pc.t, pc.version), r, s, x);
      MoveOnward(w0, w, w', e, k, o, owner, x, Lifting(pc.t, pc.version));
    } else if e.Confirm? && pc.Lifting? && o in w.lifted {
      ReleaseMoves(pc, Lifted(pc.t, pc.version), r, s, x);
      MoveOnward(w0, w, w', e, k, o, owner, x, Lifted(pc.t, pc.version));
    } else {
      StayOnward(w0, w, w', e, k, o, owner, x);
    }
  }

  lemma LocksOwn(w: World, k: nat, o: Id)
    requires k in w.workers && w.workers == map[k := w.workers[k]]
    ensures !LockedByOther(w, k, o)
    ensures !Holding(w.workers[k]) ==> !Locked(w, o)
  {
  }

  lemma ReleaseOpens(pc: Pc, r: Row, s: HostState, x: Executor, now: int)
    requires pc.Prepared? && Placed(pc, r, s, x) && Leased(r, pc.t) && RowOk(r, pc.t.op) && r.op.lease.value.until > now + 1000
    ensures OpensFinalize(r, pc.t, pc.version, AllGranted(now))
  {
  }

  lemma Opens(w0: World, w: World, w': World, e: Event, k: nat, o: Id, owner: string, x: Executor)
    requires Visitable(w0, o, owner, x) && Sound(w.db) && HasRow(w0.db, o)
    requires InCall(w0, w, k, o, owner, x) && k in w.workers && LeaseKept(w, k)
    requires e == Open(k) && w' == ApplyOpen(w, k)
    ensures Onward(w0, w, w', e, k, o, owner, x)
  {
    hide PutRow, Version, Placed, Agrees, Togo, Onward, Sound, Obliging, SiteOf, Linked, Safe, Visitable, RowOk, OpensFinalize;
    var pc, r, s := w.workers[k], RowOf(w.db, o), RowOf(w0.db, o).host.state;
    if pc.Prepared? {
      LocksOwn(w, k, o);
      Written(w0, w, k, o, owner, x, pc.t, Finalize);
      ReleaseOpens(pc, r, s, x, w.db.clock);
      ReleaseMoves(pc, Finalizing(pc.t, pc.version), r, s, x);
      MoveOnward(w0, w, w', e, k, o, owner, x, Finalizing(pc.t, pc.version));
    } else {
      StayOnward(w0, w, w', e, k, o, owner, x);
    }
  }

  // A write lands in the record the call is about.
  lemma Written(w0: World, w: World, k: nat, o: Id, owner: string, x: Executor, t: Token, write: Write)
    requires Visitable(w0, o, owner, x) && Sound(w.db) && HasRow(w0.db, o) && InCall(w0, w, k, o, owner, x)
    requires t == TokenFor(w0.db, o, owner) && (write.BindNode? ==> write.identity == x.identity(o))
    ensures HasRow(w.db, o) && SiteOf(w.db, t, write) == AllGranted(w.db.clock) && RowOk(RowOf(w.db, o), o)
    ensures RowPermits(RowOf(w.db, o), t, write, AllGranted(w.db.clock)) ==>
      var r := Effect(RowOf(w.db, o), t, write, AllGranted(w.db.clock));
      Permits(w.db, t, write) && Framed(w0.db, Perform(w.db, t, write), o) && RowOf(Perform(w.db, t, write), o) == r &&
      Perform(w.db, t, write).clock == w.db.clock
    ensures Permits(w.db, t, write) ==> RowPermits(RowOf(w.db, o), t, write, AllGranted(w.db.clock))
  {
    hide Agrees, Sound, Obliging, SiteOf, Linked, Safe, Version, Placed, RowOk, RowPermits, Effect;
    SafeLinked(w0);
    RowOkAt(w.db, o);
    SiteGood(w0, o, owner, x, t, write);
    FramedSite(w0.db, w.db, o, t, write);
    var r := RowOf(w.db, o);
    if RowPermits(r, t, write, AllGranted(w.db.clock)) {
      EffectFrame(r, t, write, AllGranted(w.db.clock));
      FramedWrite(w0.db, w.db, o, Effect(r, t, write, AllGranted(w.db.clock)));
    }
  }

  lemma RenewedRow(pc: Pc, r: Row, s: HostState, x: Executor, d: int, now: int)
    requires Placed(pc, r, s, x) && Leased(r, pc.t) && Agrees(r, pc.t.op, x) && RowPermits(r, pc.t, Renew(d), AllGranted(now))
    ensures var r' := Effect(r, pc.t, Renew(d), AllGranted(now));
      r'.op.zone == r.op.zone && Placed(pc, r', s, x) && Leased(r', pc.t) && Agrees(r', pc.t.op, x)
  {
  }

  lemma ExtendedDb(w: World, k: nat, d: int)
    requires k in w.workers
    ensures ApplyExtend(w, k, d) == w.(db := ApplyExtend(w, k, d).db)
    ensures var db := ApplyExtend(w, k, d).db;
      db == w.db || (Permits(w.db, w.workers[k].t, Renew(d)) && db == Perform(w.db, w.workers[k].t, Renew(d)))
  {
    hide Permits, Locked, Effect, SiteOf, PutRow;
  }

  lemma Extends(w0: World, w: World, w': World, e: Event, k: nat, o: Id, owner: string, x: Executor)
    requires Visitable(w0, o, owner, x) && Sound(w.db) && HasRow(w0.db, o)
    requires InCall(w0, w, k, o, owner, x) && k in w.workers && e.Extend? && e.worker == k && w' == ApplyExtend(w, k, e.lease)
    ensures Onward(w0, w, w', e, k, o, owner, x)
  {
    hide ApplyExtend, PutRow, Version, Placed, Agrees, Togo, Sound, Visitable, RowOk, RowPermits, Effect, Permits, Perform, Leased, SiteOf;
    ExtendedDb(w, k, e.lease);
    var pc := w.workers[k];
    if w'.db != w.db {
      Written(w0, w, k, o, owner, x, pc.t, Renew(e.lease));
      RenewedRow(pc, RowOf(w.db, o), RowOf(w0.db, o).host.state, x, e.lease, w.db.clock);
    }
  }

  lemma IssuedWorld(w: World, k: nat)
    requires k in w.workers && w.workers == map[k := w.workers[k]]
    ensures WriteAt(w.workers[k]).None? ==> ApplyIssue(w, k) == w
    ensures WriteAt(w.workers[k]).Some? && Permits(w.db, w.workers[k].t, WriteAt(w.workers[k]).value) ==>
      ApplyIssue(w, k) == w.(db := Perform(w.db, w.workers[k].t, WriteAt(w.workers[k]).value),
                             workers := if After(w.workers[k]).Some? then map[k := After(w.workers[k]).value] else map[])
  {
    hide Permits, Perform, WriteAt, After, LockedByOther;
    LocksOwn(w, k, w.workers[k].t.op);
    var pc := w.workers[k];
    if After(pc).Some? { assert w.workers[k := After(pc).value] == map[k := After(pc).value]; }
    assert w.workers - {k} == map[];
  }

  lemma AfterNearer(pc: Pc, lifted: bool)
    requires WriteAt(pc).Some? && After(pc).Some?
    ensures Togo(After(pc).value, lifted) < Togo(pc, lifted) && !After(pc).value.Lifting?
  {
  }

  // What a controller's successful write leaves.
  ghost predicate Landed(w0: World, w: World, pc: Pc, d: Db, o: Id, x: Executor)
    requires HasRow(w0.db, o) && HasRow(w.db, o)
  {
    Framed(w0.db, d, o) && d.clock == w.db.clock && (After(pc).Some? ==> d.ops[o].lease == w.db.ops[o].lease) &&
    var r, s := RowOf(d, o), RowOf(w0.db, o).host.state;
    Agrees(r, o, x) && r.op.zone == w0.db.ops[o].zone &&
    if After(pc).None? then Stopped(r, s) else After(pc).value.t == pc.t && Leased(r, pc.t) && Placed(After(pc).value, r, s, x)
  }

  lemma WriteLands(w0: World, w: World, k: nat, o: Id, owner: string, x: Executor)
    requires Visitable(w0, o, owner, x) && Sound(w.db) && HasRow(w0.db, o) && AnswersFor(x, o)
    requires InCall(w0, w, k, o, owner, x) && k in w.workers && LeaseKept(w, k) && WriteAt(w.workers[k]).Some?
    ensures var pc := w.workers[k]; Permits(w.db, pc.t, WriteAt(pc).value) && Landed(w0, w, pc, Perform(w.db, pc.t, WriteAt(pc).value), o, x)
  {
    hide PutRow, Version, Placed, Agrees, Sound, Visitable, RowOk, RowPermits, Effect, Permits, Perform, WriteAt, After, SiteOf, Stopped;
    var pc, r, s := w.workers[k], RowOf(w.db, o), RowOf(w0.db, o).host.state;
    BoundIdentity(pc, r, s, x);
    Written(w0, w, k, o, owner, x, pc.t, WriteAt(pc).value);
    WritePermitted(pc, r, s, x, w.db.clock);
    WriteKeeps(pc, r, s, x, w.db.clock);
    WriteMoves(pc, r, s, x, w.db.clock);
  }

  lemma Issues(w0: World, w: World, w': World, e: Event, k: nat, o: Id, owner: string, x: Executor)
    requires Visitable(w0, o, owner, x) && Sound(w.db) && HasRow(w0.db, o) && AnswersFor(x, o)
    requires InCall(w0, w, k, o, owner, x) && k in w.workers && LeaseKept(w, k) && e == Issue(k) && w' == ApplyIssue(w, k)
    ensures Onward(w0, w, w', e, k, o, owner, x)
  {
    hide ApplyIssue, PutRow, Version, Placed, Agrees, Togo, Sound, Visitable, Permits, Perform, WriteAt, After, NextStep, Stopped, LeaseKept;
    IssuedWorld(w, k);
    var pc := w.workers[k];
    if WriteAt(pc).Some? {
      WriteLands(w0, w, k, o, owner, x);
      if After(pc).Some? { AfterNearer(pc, pc.t.host in w.lifted); }
      PositiveTogo(pc, pc.t.host in w.lifted);
    } else {
      IssueIsNotNext(w, k, x, RowOf(w.db, o), RowOf(w0.db, o).host.state);
      StayOnward(w0, w, w', e, k, o, owner, x);
    }
  }

  lemma PositiveTogo(pc: Pc, lifted: bool)
    ensures Togo(pc, lifted) > 0
  {
  }

  lemma BoundIdentity(pc: Pc, r: Row, s: HostState, x: Executor)
    requires Placed(pc, r, s, x) && WriteAt(pc).Some?
    ensures WriteAt(pc).value.BindNode? ==> WriteAt(pc).value.identity == x.identity(pc.t.op)
  {
  }

  lemma IssueIsNotNext(w: World, k: nat, x: Executor, r: Row, s: HostState)
    requires k in w.workers && Placed(w.workers[k], r, s, x) && WriteAt(w.workers[k]).None?
    ensures NextStep(w, k, x) != Issue(k)
  {
  }

  lemma VisitFacts(w: World, o: Id, owner: string, x: Executor)
    requires Visitable(w, o, owner, x)
    ensures HasRow(w.db, o) && AnswersFor(x, o) && Linked(w.db) && w.db.ops[o].host == o
    ensures RowOk(RowOf(w.db, o), o) && Agrees(RowOf(w.db, o), o, x) && Free(w.db.ops[o], w.db.clock)
  {
    hide Sound, Workers, WriteAhead, MemberReady, DominatorOf, TopologyReady, Free, RowOk, AnswersFor;
    RowOkAt(w.db, o);
    assert LinkedOp(w.db, o);
  }

  lemma OwnMove(w0: World, w: World, e: Event, k: nat, o: Id, owner: string, d: int, x: Executor)
    requires HasRow(w0.db, o) && Distance(RowOf(w0.db, o).host.state) > 0 && InCall(w0, w, k, o, owner, x) && k in w.workers
    requires Faithful(w, e, k, d, x) && !e.Issue? && !e.Open? && !e.Extend?
    ensures Onward(w0, w, Apply(w, e), e, k, o, owner, x)
  {
    hide Apply, InCall, Onward, ApplyLift, ApplyConfirm, ApplyReadHost, Returned, Answer, Distance;
    StepIs(w, e);
    EventIs(w, e);
    var w' := Apply(w, e);
    match e {
      case Tick(_) => Ticks(w0, w, w', e, k, o, owner, x);
      case Land(_) => Lands(w0, w, w', e, k, o, owner, x);
      case ReadHost(_) => Reads(w0, w, w', e, k, o, owner, x);
      case Lift(_) => Lifts(w0, w, w', e, k, o, owner, x);
      case Confirm(_) => Lifts(w0, w, w', e, k, o, owner, x);
      case Return(_, _) => Hears(w0, w, w', e, k, o, owner, x);
    }
  }

  lemma OwnWrite(w0: World, w: World, e: Event, k: nat, o: Id, owner: string, d: int, x: Executor)
    requires Visitable(w0, o, owner, x) && HasRow(w0.db, o) && Sound(w.db) && InCall(w0, w, k, o, owner, x) && k in w.workers
    requires Faithful(w, e, k, d, x) && LeaseKept(w, k) && (e.Issue? || e.Open? || e.Extend?)
    ensures Onward(w0, w, Apply(w, e), e, k, o, owner, x)
  {
    hide Apply, Sound, Visitable, InCall, Onward, LeaseKept, ApplyIssue, ApplyOpen, ApplyExtend, RowOk, Agrees, Linked, AnswersFor, Free;
    VisitFacts(w0, o, owner, x);
    StepIs(w, e);
    EventIs(w, e);
    var w' := Apply(w, e);
    match e {
      case Issue(_) => Issues(w0, w, w', e, k, o, owner, x);
      case Open(_) => Opens(w0, w, w', e, k, o, owner, x);
      case Extend(_, _) => Extends(w0, w, w', e, k, o, owner, x);
    }
  }

  // Whatever happens during a call keeps it on course.
  lemma CallStep(w0: World, w: World, e: Event, k: nat, o: Id, owner: string, d: int, x: Executor)
    requires Visitable(w0, o, owner, x) && HasRow(w0.db, o) && Distance(RowOf(w0.db, o).host.state) > 0
    requires Safe(w) && InCall(w0, w, k, o, owner, x) && k in w.workers && Faithful(w, e, k, d, x) && LeaseKept(w, k)
    ensures Onward(w0, w, Apply(w, e), e, k, o, owner, x)
  {
    hide Apply, Safe, Sound, Visitable, InCall, Onward, LeaseKept, Faithful, Distance;
    SafeSound(w);
    if e.Issue? || e.Open? || e.Extend? { OwnWrite(w0, w, e, k, o, owner, d, x); } else { OwnMove(w0, w, e, k, o, owner, d, x); }
  }

  // Once the controller has returned, only time passes and updates land.
  lemma IdleEvent(w: World, e: Event, k: nat, d: int, x: Executor)
    requires w.workers == map[] && Faithful(w, e, k, d, x)
    ensures Apply(w, e).workers == map[] && w.db.clock <= Apply(w, e).db.clock && Apply(w, e).db == w.db.(clock := Apply(w, e).db.clock)
  {
  }

  lemma IdleStep(w0: World, w: World, e: Event, k: nat, o: Id, owner: string, d: int, x: Executor)
    requires HasRow(w0.db, o) && InCall(w0, w, k, o, owner, x) && w.workers == map[] && Faithful(w, e, k, d, x)
    ensures InCall(w0, Apply(w, e), k, o, owner, x)
  {
    hide Apply, PutRow, Version, Placed, Agrees, Faithful;
    IdleEvent(w, e, k, d, x);
    FramedTick(w0.db, w.db, o, Apply(w, e).db.clock);
    ClockRow(w.db, o, Apply(w, e).db.clock);
  }

  // The claim starts the call.
  lemma TakeStarts(w: World, k: nat, o: Id, owner: string, d: int, x: Executor)
    requires Visitable(w, o, owner, x) && MIN_LEASE <= d <= MAX_LEASE
    ensures HasRow(w.db, o) && InCall(w, ApplyTake(w, k, o, owner, d), k, o, owner, x) && k in ApplyTake(w, k, o, owner, d).workers
    ensures var w' := ApplyTake(w, k, o, owner, d);
      w'.db.clock == w.db.clock && o in w'.db.ops && w'.db.ops[o].lease == Some(Lease(owner, w.db.clock + d))
  {
    hide Safe, Visitable, Linked, PutRow, Version, RowOk, Agrees, AnswersFor;
    VisitFacts(w, o, owner, x);
    NothingLocked(w, o, owner, x);
    var r := RowOf(w.db, o);
    var r' := ClaimedRow(r, owner, w.db.clock + d);
    FramedSame(w.db, o);
    FramedWrite(w.db, w.db, o, r');
    ClaimedAgrees(r, o, owner, w.db.clock + d, x);
    PutClockSame(w.db, o, r');
  }

  lemma PutClockSame(db: Db, o: Id, r: Row)
    requires HasRow(db, o)
    ensures PutRow(db, o, r).clock == db.clock
  {
  }

  lemma NothingLocked(w: World, o: Id, owner: string, x: Executor)
    requires Visitable(w, o, owner, x)
    ensures w.workers == map[] && !Locked(w, o) && Claimable(w.db, o, owner)
  {
    hide Safe, Obliging, Claimable, TopologyReady;
  }

  lemma ClaimedAgrees(r: Row, o: Id, owner: string, until: int, x: Executor)
    requires Agrees(r, o, x)
    ensures Agrees(ClaimedRow(r, owner, until), o, x)
  {
  }

  // ---------- Every complete call ----------

  lemma Shorter(w: World, es: seq<Event>, o: Id, owner: string, d: int, x: Executor)
    requires Ongoing(w, es, o, owner, d, x) && |es| > 1
    ensures var was := es[..|es| - 1];
      Ongoing(w, was, o, owner, d, x) && was[0] == es[0] && Run(w, es) == Apply(Run(w, was), es[|es| - 1]) &&
      Faithful(Run(w, was), es[|es| - 1], es[0].worker, d, x) && LeaseKept(Run(w, was), es[0].worker)
  {
    hide Apply, Faithful, LeaseKept;
    var was := es[..|es| - 1];
    forall i | 0 < i <= |was| ensures was[..i] == es[..i] {}
  }

  lemma FirstStep(w: World, es: seq<Event>, o: Id, owner: string, d: int, x: Executor)
    requires Ongoing(w, es, o, owner, d, x) && |es| == 1
    ensures Run(w, es) == ApplyTake(w, es[0].worker, o, owner, d)
  {
    hide Apply, ApplyTake, Faithful, LeaseKept;
    EventIs(w, es[0]);
    assert es[..0] == [];
  }

  // However its steps interleave with renewals, delays and late updates, a call stays on course.
  lemma {:induction false} OnCourse(w: World, es: seq<Event>, o: Id, owner: string, d: int, x: Executor)
    requires Visitable(w, o, owner, x) && HasRow(w.db, o) && Distance(RowOf(w.db, o).host.state) > 0 && MIN_LEASE <= d <= MAX_LEASE
    requires Ongoing(w, es, o, owner, d, x)
    ensures Safe(Run(w, es)) && InCall(w, Run(w, es), es[0].worker, o, owner, x)
    decreases |es|
  {
    hide Apply, Safe, Visitable, InCall, LeaseKept, Faithful, Distance, Ongoing, ApplyTake, Run, Progresses, HasRow, Onward;
    VisitSafe(w, o, owner, x);
    CallShape(w, es, o, owner, d, x);
    RunSafe(w, es);
    if |es| == 1 {
      FirstStep(w, es, o, owner, d, x);
      TakeStarts(w, es[0].worker, o, owner, d, x);
    } else {
      var was := es[..|es| - 1];
      Shorter(w, es, o, owner, d, x);
      OnCourse(w, was, o, owner, d, x);
      StepInCall(w, Run(w, was), es[|es| - 1], es[0].worker, o, owner, d, x);
    }
  }

  lemma VisitSafe(w: World, o: Id, owner: string, x: Executor)
    requires Visitable(w, o, owner, x)
    ensures Safe(w)
  {
  }

  lemma CallShape(w: World, es: seq<Event>, o: Id, owner: string, d: int, x: Executor)
    requires Ongoing(w, es, o, owner, d, x)
    ensures |es| > 0 && es[0].Take?
  {
  }

  lemma StepInCall(w0: World, w: World, e: Event, k: nat, o: Id, owner: string, d: int, x: Executor)
    requires Visitable(w0, o, owner, x) && HasRow(w0.db, o) && Distance(RowOf(w0.db, o).host.state) > 0
    requires Safe(w) && InCall(w0, w, k, o, owner, x) && Faithful(w, e, k, d, x) && LeaseKept(w, k)
    ensures InCall(w0, Apply(w, e), k, o, owner, x)
  {
    hide Apply, Safe, Visitable, LeaseKept, Faithful, Distance, Framed, Placed, Agrees, Leased, Stopped;
    if w.workers == map[] { IdleStep(w0, w, e, k, o, owner, d, x); } else { CallStep(w0, w, e, k, o, owner, d, x); }
  }

  // ---------- Calls exist ----------

  lemma NextIsFaithful(w: World, k: nat, d: int, x: Executor)
    requires k in w.workers
    ensures Faithful(w, NextStep(w, k, x), k, d, x)
  {
  }

  // A run that grows by one event.
  lemma Then(w: World, es: seq<Event>, w1: World, e: Event, w2: World) returns (longer: seq<Event>)
    requires Run(w, es) == w1 && Apply(w1, e) == w2
    ensures longer == es + [e] && Run(w, longer) == w2
  {
    hide Apply;
    longer := es + [e];
    assert longer[..|longer| - 1] == es;
  }

  lemma Longer(w: World, es: seq<Event>, e: Event, o: Id, owner: string, d: int, x: Executor)
    requires Ongoing(w, es, o, owner, d, x) && Faithful(Run(w, es), e, es[0].worker, d, x)
    requires LeaseKept(Apply(Run(w, es), e), es[0].worker)
    ensures Ongoing(w, es + [e], o, owner, d, x) && Run(w, es + [e]) == Apply(Run(w, es), e)
  {
    hide Apply, Faithful, LeaseKept;
    var all := es + [e];
    forall i | 0 < i <= |es| ensures all[..i] == es[..i] {}
    assert all[..|all| - 1] == es && all[..|all|] == all && es[..|es|] == es;
  }

  // The lease is still the one of the claim, and no time has passed.
  predicate Fresh(w0: World, w: World, k: nat, o: Id, owner: string, d: int) {
    w.db.clock == w0.db.clock && (k in w.workers ==> o in w.db.ops && w.db.ops[o].lease == Some(Lease(owner, w0.db.clock + d)))
  }

  lemma FreshKept(w0: World, w: World, k: nat, o: Id, owner: string, d: int, x: Executor)
    requires HasRow(w0.db, o) && InCall(w0, w, k, o, owner, x) && Fresh(w0, w, k, o, owner, d) && 1000 < d
    ensures LeaseKept(w, k) && (k !in w.workers ==> w.workers == map[])
  {
    hide Framed, Placed, Agrees, Leased;
  }

  lemma NextOnward(w0: World, w: World, w': World, k: nat, o: Id, owner: string, d: int, x: Executor)
    requires HasRow(w0.db, o) && k in w.workers && Onward(w0, w, w', NextStep(w, k, x), k, o, owner, x)
    requires Fresh(w0, w, k, o, owner, d)
    ensures InCall(w0, w', k, o, owner, x) && Left(w', k) < Left(w, k) && Fresh(w0, w', k, o, owner, d)
  {
    hide InCall, Left, NextStep;
  }

  lemma {:induction false} CallEnds(w: World, es: seq<Event>, o: Id, owner: string, d: int, x: Executor) returns (all: seq<Event>)
    requires Visitable(w, o, owner, x) && HasRow(w.db, o) && Distance(RowOf(w.db, o).host.state) > 0 && 1000 < d <= MAX_LEASE
    requires Ongoing(w, es, o, owner, d, x) && Fresh(w, Run(w, es), es[0].worker, o, owner, d)
    ensures CompleteCall(w, all, o, owner, d, x)
    decreases Left(Run(w, es), es[0].worker)
  {
    hide Apply, Safe, Visitable, InCall, LeaseKept, Faithful, Distance, Ongoing, Run, HasRow, Onward, Left, Fresh, NextStep;
    CallShape(w, es, o, owner, d, x);
    OnCourse(w, es, o, owner, d, x);
    var k, mid := es[0].worker, Run(w, es);
    FreshKept(w, mid, k, o, owner, d, x);
    if k !in mid.workers {
      all := es;
    } else {
      var e := NextStep(mid, k, x);
      NextIsFaithful(mid, k, d, x);
      CallStep(w, mid, e, k, o, owner, d, x);
      NextOnward(w, mid, Apply(mid, e), k, o, owner, d, x);
      FreshKept(w, Apply(mid, e), k, o, owner, d, x);
      Longer(w, es, e, o, owner, d, x);
      all := CallEnds(w, es + [e], o, owner, d, x);
    }
  }

  lemma Starts(w: World, k: nat, o: Id, owner: string, d: int, x: Executor)
    requires Visitable(w, o, owner, x) && HasRow(w.db, o) && 1000 < d <= MAX_LEASE
    ensures Ongoing(w, [Take(k, o, owner, d)], o, owner, d, x) && Fresh(w, Run(w, [Take(k, o, owner, d)]), k, o, owner, d)
  {
    hide Apply, Visitable, InCall, ApplyTake, Faithful, LeaseKept, HasRow;
    var e := Take(k, o, owner, d);
    EventIs(w, e);
    TakeStarts(w, k, o, owner, d, x);
    var es := Then(w, [], w, e, ApplyTake(w, k, o, owner, d));
    assert es == [e] && es[..1] == es;
    FreshKept(w, Run(w, es), k, o, owner, d, x);
  }

  lemma SomeCall(w: World, k: nat, o: Id, owner: string, d: int, x: Executor) returns (es: seq<Event>)
    requires Visitable(w, o, owner, x) && HasRow(w.db, o) && Distance(RowOf(w.db, o).host.state) > 0 && 1000 < d <= MAX_LEASE
    ensures CompleteCall(w, es, o, owner, d, x)
  {
    hide Run, Visitable, Ongoing, CompleteCall, HasRow, Distance, Fresh;
    Starts(w, k, o, owner, d, x);
    es := CallEnds(w, [Take(k, o, owner, d)], o, owner, d, x);
  }

  // ---------- A whole zone ----------

  predicate IsUnfinished(db: Db, z: string, o: Id) {
    o in db.ops && db.ops[o].kind.Provision? && db.ops[o].zone == z && !db.ops[o].state.Succeeded? && !db.ops[o].state.Cancelled?
  }

  function Unfinished(db: Db, z: string): set<Id> {
    set o | o in db.ops && IsUnfinished(db, z, o)
  }

  function DistanceOf(db: Db, z: string): nat -> int {
    (o: nat) => if o in db.ops && o in db.hosts && db.ops[o].zone == z then Distance(db.hosts[o].state) else 0
  }

  // The summed distance of a zone's hosts from READY.
  function Potential(db: Db, z: string): int { Sum(DistanceOf(db, z), db.next) }

  // No controller is running, every unfinished operation of the zone may be claimed (its lease has
  // run out, its membership is ready and approved, the Dominator is the registered one), and the
  // executor succeeds. A lease of a second or less could never open the handoff.
  ghost predicate Resting(w: World, z: string, owner: string, d: int, x: Executor) {
    w.workers == map[] && 1000 < d <= MAX_LEASE && Obliging(w.db, x) &&
    forall o :: o in Unfinished(w.db, z) ==> Serviceable(w.db, o, owner)
  }

  ghost predicate Drainable(w: World, z: string, owner: string, d: int, x: Executor) {
    Safe(w) && Resting(w, z, owner, d, x)
  }

  // claim orders by creation.
  ghost function Oldest(s: set<Id>): (o: Id)
    requires s != {}
    ensures o in s && forall p :: p in s ==> o <= p
    decreases |s|
  {
    var x :| x in s;
    if s == {x} then x else
      assert s == (s - {x}) + {x};
      var y := Oldest(s - {x});
      if x < y then x else y
  }

  // One RunOnce call of the zone's Dominator: the oldest unfinished operation, or nothing to do.
  ghost predicate RunOnce(w: World, es: seq<Event>, z: string, owner: string, d: int, x: Executor) {
    if Unfinished(w.db, z) == {} then forall i :: 0 <= i < |es| ==> es[i].Tick? || es[i].Land?
    else CompleteCall(w, es, Oldest(Unfinished(w.db, z)), owner, d, x)
  }

  lemma UnfinishedMeansAway(db: Db, z: string, o: Id)
    requires Sound(db)
    ensures o in Unfinished(db, z) <==> DistanceOf(db, z)(o) > 0
    ensures 0 <= DistanceOf(db, z)(o) <= 3 && (o in Unfinished(db, z) ==> o < db.next && HasRow(db, o) && db.ops[o].host == o && o in db.hosts)
  {
    hide PoolBound, Typed, NodesDistinct, Evidence;
    if o in db.ops && db.ops[o].kind.Provision? {
      assert LinkedOp(db, o);
      assert LinkedHost(db, o) && RowOk(RowOf(db, o), o);
    }
  }

  // An operation of the zone that a call can take on.
  predicate Outstanding(db: Db, o: Id, z: string) {
    HasRow(db, o) && db.ops[o].zone == z && o < db.next && Distance(RowOf(db, o).host.state) > 0
  }

  // What a complete call leaves of the tables.
  ghost predicate Advanced(db: Db, d: Db, o: Id, x: Executor) {
    Framed(db, d, o) && d.ops[o].zone == db.ops[o].zone && Agrees(RowOf(d, o), o, x) && Stopped(RowOf(d, o), RowOf(db, o).host.state)
  }

  // Every complete call, whatever came between its steps, takes its host exactly one stage on and
  // leaves every other record alone.
  lemma EveryCallAdvances(w: World, es: seq<Event>, o: Id, owner: string, d: int, x: Executor)
    requires Visitable(w, o, owner, x) && HasRow(w.db, o) && Distance(RowOf(w.db, o).host.state) > 0 && MIN_LEASE <= d <= MAX_LEASE
    requires CompleteCall(w, es, o, owner, d, x)
    ensures Safe(Run(w, es)) && Run(w, es).workers == map[] && Advanced(w.db, Run(w, es).db, o, x)
  {
    hide Apply, Safe, Visitable, LeaseKept, Faithful, Distance, Ongoing, Run, Framed, Agrees, Stopped;
    OnCourse(w, es, o, owner, d, x);
  }

  // What a call changes, seen from one host of the zone.
  lemma OthersStay(db: Db, d: Db, o: Id, z: string, p: Id)
    requires Linked(db) && Framed(db, d, o) && p != o
    ensures (p in Unfinished(d, z) <==> p in Unfinished(db, z)) && DistanceOf(d, z)(p) == DistanceOf(db, z)(p)
    ensures p in db.hosts ==> p in d.hosts && d.hosts[p] == db.hosts[p]
    ensures p in db.ops ==> p in d.ops && d.ops[p] == db.ops[p]
  {
    hide Version, Linked;
    FramedHost(db, d, o);
  }

  lemma FramedHost(db: Db, d: Db, o: Id)
    requires Linked(db) && Framed(db, d, o)
    ensures o in db.ops && o in db.hosts && o in d.ops && o in d.hosts && d.ops[o].host == o && db.ops[o].host == o
    ensures RowOf(d, o).host == d.hosts[o] && RowOf(db, o).host == db.hosts[o] && d.next == db.next
  {
    assert LinkedOp(db, o);
  }

  lemma SelfMoves(db: Db, d: Db, o: Id, z: string, x: Executor)
    requires Outstanding(db, o, z) && Linked(db) && Advanced(db, d, o, x)
    ensures DistanceOf(d, z)(o) == DistanceOf(db, z)(o) - 1
    ensures o in d.hosts && (DistanceOf(d, z)(o) == 0 ==> d.hosts[o].state.Ready?)
  {
    hide PutRow, Version, Agrees, Linked;
    FramedHost(db, d, o);
  }

  lemma StillServiceable(db: Db, d: Db, o: Id, p: Id, owner: string, x: Executor)
    requires Linked(db) && Advanced(db, d, o, x) && Serviceable(db, p, owner) && HasRow(db, p) && HasRow(d, p)
    requires p == o ==> !d.hosts[o].state.Ready?
    ensures Serviceable(d, p, owner)
  {
    hide Agrees, Linked;
    FramedHost(db, d, o);
    if p != o { OthersStay(db, d, o, "", p); }
    assert d.groups == db.groups && d.members == db.members && d.zones == db.zones && d.clusters == db.clusters && d.dominators == db.dominators;
  }

  lemma StillObliging(db: Db, d: Db, o: Id, x: Executor)
    requires Linked(db) && Advanced(db, d, o, x) && Obliging(db, x)
    ensures Obliging(d, x)
  {
    hide Distance, AnswersFor, Stopped, Linked, Version;
    FramedHost(db, d, o);
  }

  lemma PotentialFalls(db: Db, d: Db, o: Id, z: string, x: Executor)
    requires Outstanding(db, o, z) && Linked(db) && Advanced(db, d, o, x)
    ensures Potential(d, z) == Potential(db, z) - 1
  {
    hide Linked, DistanceOf, Framed, Agrees, Stopped, Distance;
    forall p: nat | p != o ensures DistanceOf(db, z)(p) == DistanceOf(d, z)(p) { OthersStay(db, d, o, z, p); }
    SelfMoves(db, d, o, z, x);
    FramedHost(db, d, o);
    SumPoint(DistanceOf(db, z), DistanceOf(d, z), db.next, o);
  }

  // What some calls leave behind in the zone: fewer operations, the missing ones READY.
  ghost predicate Narrowed(w: World, w': World, z: string, owner: string, d: int, x: Executor) {
    Drainable(w', z, owner, d, x) && Unfinished(w'.db, z) <= Unfinished(w.db, z) &&
    forall o :: o in Unfinished(w.db, z) && o !in Unfinished(w'.db, z) ==> o in w'.db.hosts && w'.db.hosts[o].state.Ready?
  }

  lemma NarrowFor(db: Db, d: Db, o: Id, z: string, p: Id, owner: string, x: Executor)
    requires Outstanding(db, o, z) && Linked(db) && Advanced(db, d, o, x) && Sound(db) && Sound(d)
    requires p in Unfinished(db, z) ==> Serviceable(db, p, owner)
    ensures p in Unfinished(d, z) ==> p in Unfinished(db, z) && Serviceable(d, p, owner)
    ensures p in Unfinished(db, z) && p !in Unfinished(d, z) ==> p in d.hosts && d.hosts[p].state.Ready?
  {
    hide Sound, Linked, Unfinished, Advanced, DistanceOf, Outstanding, Serviceable;
    AdvancedFramed(db, d, o, x);
    UnfinishedMeansAway(db, z, p);
    UnfinishedMeansAway(d, z, p);
    FramedHost(db, d, o);
    if p != o { OthersStay(db, d, o, z, p); } else { SelfMoves(db, d, o, z, x); }
    if p in Unfinished(d, z) {
      StateAway(d, z, p);
      StillServiceable(db, d, o, p, owner, x);
    }
  }

  lemma AdvancedFramed(db: Db, d: Db, o: Id, x: Executor)
    requires Advanced(db, d, o, x)
    ensures Framed(db, d, o)
  {
  }

  lemma StateAway(db: Db, z: string, o: Id)
    requires o in db.hosts && DistanceOf(db, z)(o) > 0
    ensures !db.hosts[o].state.Ready?
  {
  }

  lemma CallNarrows(w: World, w': World, z: string, owner: string, d: int, x: Executor, o: Id)
    requires Drainable(w, z, owner, d, x) && Outstanding(w.db, o, z) && Linked(w.db) && Advanced(w.db, w'.db, o, x)
    requires Safe(w') && w'.workers == map[]
    ensures Narrowed(w, w', z, owner, d, x)
  {
    hide Safe, Sound, Linked, Obliging, Unfinished, Advanced, Serviceable, Outstanding;
    SafeSound(w);
    SafeSound(w');
    StillObliging(w.db, w'.db, o, x);
    forall p ensures (p in Unfinished(w'.db, z) ==> p in Unfinished(w.db, z) && Serviceable(w'.db, p, owner)) &&
      (p in Unfinished(w.db, z) && p !in Unfinished(w'.db, z) ==> p in w'.db.hosts && w'.db.hosts[p].state.Ready?)
    {
      NarrowFor(w.db, w'.db, o, z, p, owner, x);
    }
  }

  lemma DrainableVisit(w: World, z: string, owner: string, d: int, x: Executor, o: Id)
    requires Drainable(w, z, owner, d, x) && o in Unfinished(w.db, z)
    ensures Visitable(w, o, owner, x) && Linked(w.db) && Outstanding(w.db, o, z) && MIN_LEASE <= 1000 < d <= MAX_LEASE
  {
    hide Sound, Workers, WriteAhead, Obliging, TopologyReady, MemberReady, DominatorOf, Free, Linked;
    UnfinishedMeansAway(w.db, z, o);
    SafeLinked(w);
  }

  // Every RunOnce call of the zone's Dominator that has something to do lowers the zone's summed
  // distance by exactly one.
  lemma EveryRunOnceCounts(w: World, es: seq<Event>, z: string, owner: string, d: int, x: Executor)
    requires Drainable(w, z, owner, d, x) && RunOnce(w, es, z, owner, d, x) && Unfinished(w.db, z) != {}
    ensures Narrowed(w, Run(w, es), z, owner, d, x) && Potential(Run(w, es).db, z) == Potential(w.db, z) - 1
  {
    hide Run, Drainable, Safe, Linked, Unfinished, Potential, CompleteCall, Visitable, Narrowed, Advanced, Distance;
    var o := Oldest(Unfinished(w.db, z));
    DrainableVisit(w, z, owner, d, x, o);
    EveryCallAdvances(w, es, o, owner, d, x);
    CallNarrows(w, Run(w, es), z, owner, d, x, o);
    PotentialFalls(w.db, Run(w, es).db, o, z, x);
  }

  // ---------- The whole drain ----------

  lemma PotentialBounds(db: Db, z: string)
    requires Sound(db)
    ensures |Unfinished(db, z)| <= Potential(db, z) <= 3 * |Unfinished(db, z)|
    ensures Unfinished(db, z) == {} <==> Potential(db, z) == 0
  {
    hide Sound, Unfinished, DistanceOf;
    var u := Unfinished(db, z);
    var one, two, three := Indicator(u), (i: nat) => 2 * Indicator(u)(i), (i: nat) => 3 * Indicator(u)(i);
    forall o: nat ensures (o in u ==> o < db.next) && one(o) <= DistanceOf(db, z)(o) <= three(o) { UnfinishedMeansAway(db, z, o); }
    SumIndicator(u, db.next);
    SumAdd(one, one, two, db.next);
    SumAdd(one, two, three, db.next);
    SumLess(one, DistanceOf(db, z), db.next);
    SumLess(DistanceOf(db, z), three, db.next);
  }

  function Flatten(calls: seq<seq<Event>>): seq<Event> {
    if calls == [] then [] else calls[0] + Flatten(calls[1..])
  }

  // One RunOnce call after another.
  ghost predicate Calls(w: World, calls: seq<seq<Event>>, z: string, owner: string, d: int, x: Executor)
    decreases |calls|
  {
    calls == [] || (RunOnce(w, calls[0], z, owner, d, x) && Calls(Run(w, calls[0]), calls[1..], z, owner, d, x))
  }

  lemma QuietEvent(w: World, e: Event)
    requires e.Tick? || e.Land?
    ensures var w' := Apply(w, e); w'.workers == w.workers && w.db.clock <= w'.db.clock && w'.db == w.db.(clock := w'.db.clock)
  {
  }

  lemma {:induction false} QuietRun(w: World, es: seq<Event>)
    requires forall i :: 0 <= i < |es| ==> es[i].Tick? || es[i].Land?
    ensures var w' := Run(w, es); w'.workers == w.workers && w.db.clock <= w'.db.clock && w'.db == w.db.(clock := w'.db.clock)
  {
    hide Apply;
    if es != [] {
      QuietRun(w, es[..|es| - 1]);
      QuietEvent(Run(w, es[..|es| - 1]), es[|es| - 1]);
    }
  }

  lemma ClockOnly(db: Db, d: Db, z: string, x: Executor)
    requires d == db.(clock := d.clock) && Obliging(db, x)
    ensures Unfinished(d, z) == Unfinished(db, z) && Potential(d, z) == Potential(db, z) && Obliging(d, x)
  {
    hide AnswersFor;
    SumSame(DistanceOf(db, z), DistanceOf(d, z), db.next);
  }

  lemma QuietNarrows(w: World, es: seq<Event>, z: string, owner: string, d: int, x: Executor)
    requires Drainable(w, z, owner, d, x) && RunOnce(w, es, z, owner, d, x) && Unfinished(w.db, z) == {}
    ensures Narrowed(w, Run(w, es), z, owner, d, x) && Potential(Run(w, es).db, z) == Potential(w.db, z)
  {
    hide Run, Safe, Unfinished, Potential, CompleteCall, Obliging, Serviceable, Progresses, Oldest;
    RunSafe(w, es);
    QuietRun(w, es);
    ClockOnly(w.db, Run(w, es).db, z, x);
  }

  function Less(p: int, n: nat): int { if n < p then p - n else 0 }

  lemma OneCall(w: World, es: seq<Event>, z: string, owner: string, d: int, x: Executor)
    requires Drainable(w, z, owner, d, x) && RunOnce(w, es, z, owner, d, x)
    ensures Narrowed(w, Run(w, es), z, owner, d, x) && Potential(Run(w, es).db, z) == Less(Potential(w.db, z), 1)
  {
    hide Run, Drainable, Unfinished, Potential, RunOnce, Narrowed, Sound, Safe;
    DrainableSound(w, z, owner, d, x);
    PotentialBounds(w.db, z);
    if Unfinished(w.db, z) == {} { QuietNarrows(w, es, z, owner, d, x); } else { EveryRunOnceCounts(w, es, z, owner, d, x); }
  }

  lemma DrainableSound(w: World, z: string, owner: string, d: int, x: Executor)
    requires Drainable(w, z, owner, d, x)
    ensures Sound(w.db) && Safe(w) && 1000 < d <= MAX_LEASE
  {
  }

  lemma ReadyStays(db: Db, db': Db, h: Id)
    requires Progresses(db, db') && h in db.hosts && db.hosts[h].state.Ready? && Linked(db) && Linked(db')
    ensures h in db'.hosts && db'.hosts[h].state.Ready?
  {
    hide GroupsAdvance, Recorded;
    LinkedHasRow(db, h);
    LinkedHasRow(db', h);
    assert Advances(RowOf(db, h), RowOf(db', h), db.clock);
  }

  lemma NarrowedChain(w: World, mid: World, more: seq<Event>, z: string, owner: string, d: int, x: Executor)
    requires Narrowed(w, mid, z, owner, d, x) && Narrowed(mid, Run(mid, more), z, owner, d, x)
    ensures Narrowed(w, Run(mid, more), z, owner, d, x)
  {
    hide Run, Drainable, Unfinished, Safe, Progresses, Linked;
    DrainableSound(mid, z, owner, d, x);
    RunSafe(mid, more);
    SafeLinked(mid);
    SafeLinked(Run(mid, more));
    var w' := Run(mid, more);
    forall o | o in Unfinished(w.db, z) && o !in Unfinished(w'.db, z) ensures o in w'.db.hosts && w'.db.hosts[o].state.Ready? {
      if o !in Unfinished(mid.db, z) { ReadyStays(mid.db, w'.db, o); }
    }
  }

  lemma NarrowedSame(w: World, z: string, owner: string, d: int, x: Executor)
    requires Drainable(w, z, owner, d, x)
    ensures Narrowed(w, w, z, owner, d, x)
  {
    hide Drainable, Unfinished;
  }

  lemma NarrowedDrainable(w: World, w': World, z: string, owner: string, d: int, x: Executor)
    requires Narrowed(w, w', z, owner, d, x)
    ensures Drainable(w', z, owner, d, x)
  {
  }

  // Any number of calls, each by any interleaving: every one of them counts.
  lemma {:induction false} EveryDrain(w: World, calls: seq<seq<Event>>, z: string, owner: string, d: int, x: Executor)
    requires Drainable(w, z, owner, d, x) && Calls(w, calls, z, owner, d, x)
    ensures Narrowed(w, Run(w, Flatten(calls)), z, owner, d, x)
    ensures Potential(Run(w, Flatten(calls)).db, z) == Less(Potential(w.db, z), |calls|)
    decreases |calls|
  {
    hide Apply, Drainable, Unfinished, Potential, RunOnce, Narrowed, Sound;
    DrainableSound(w, z, owner, d, x);
    PotentialBounds(w.db, z);
    if calls == [] {
      NarrowedSame(w, z, owner, d, x);
    } else {
      var next, rest := Run(w, calls[0]), calls[1..];
      OneCall(w, calls[0], z, owner, d, x);
      NarrowedDrainable(w, next, z, owner, d, x);
      EveryDrain(next, rest, z, owner, d, x);
      RunSplit(w, calls[0], Flatten(rest));
      NarrowedChain(w, next, Flatten(rest), z, owner, d, x);
    }
  }

  // From any state a crash left, with no controller running: after every sequence of at least as
  // many RunOnce calls as the summed distance, at most three for each unfinished operation, all
  // of them are READY.
  lemma EveryDrainFinishes(w: World, calls: seq<seq<Event>>, z: string, owner: string, d: int, x: Executor)
    requires Drainable(w, z, owner, d, x) && Calls(w, calls, z, owner, d, x) && |calls| >= Potential(w.db, z)
    ensures Potential(w.db, z) <= 3 * |Unfinished(w.db, z)|
    ensures var w' := Run(w, Flatten(calls));
      Unfinished(w'.db, z) == {} && forall o :: o in Unfinished(w.db, z) ==> o in w'.db.hosts && w'.db.hosts[o].state.Ready?
  {
    hide Run, Drainable, Unfinished, Potential, Calls, Flatten, Sound, Safe;
    EveryDrain(w, calls, z, owner, d, x);
    DrainableSound(w, z, owner, d, x);
    PotentialBounds(w.db, z);
    DrainableSound(Run(w, Flatten(calls)), z, owner, d, x);
    PotentialBounds(Run(w, Flatten(calls)).db, z);
  }

  // And such sequences exist, of every length.
  lemma SomeRunOnce(w: World, k: nat, z: string, owner: string, d: int, x: Executor) returns (es: seq<Event>)
    requires Drainable(w, z, owner, d, x)
    ensures RunOnce(w, es, z, owner, d, x)
  {
    hide Run, Drainable, Unfinished, CompleteCall, Visitable, Linked;
    if Unfinished(w.db, z) == {} {
      es := [];
    } else {
      var o := Oldest(Unfinished(w.db, z));
      DrainableVisit(w, z, owner, d, x, o);
      es := SomeCall(w, k, o, owner, d, x);
    }
  }

  lemma {:induction false} SomeCalls(w: World, n: nat, k: nat, z: string, owner: string, d: int, x: Executor) returns (calls: seq<seq<Event>>)
    requires Drainable(w, z, owner, d, x)
    ensures |calls| == n && Calls(w, calls, z, owner, d, x)
    decreases n
  {
    hide Run, Drainable, RunOnce, Narrowed;
    if n == 0 {
      calls := [];
    } else {
      var es := SomeRunOnce(w, k, z, owner, d, x);
      OneCall(w, es, z, owner, d, x);
      NarrowedDrainable(w, Run(w, es), z, owner, d, x);
      var rest := SomeCalls(Run(w, es), n - 1, k, z, owner, d, x);
      calls := [es] + rest;
      assert calls[1..] == rest;
    }
  }

  // So every run that has come to rest, wherever its controllers crashed, is completed by every
  // such sequence of calls, and by some.
  lemma EveryRunFinishes(es: seq<Event>, calls: seq<seq<Event>>, z: string, owner: string, d: int, x: Executor)
    requires Resting(Run(START, es), z, owner, d, x) && Calls(Run(START, es), calls, z, owner, d, x)
    requires |calls| >= 3 * |Unfinished(Run(START, es).db, z)|
    ensures var w' := Run(START, es + Flatten(calls));
      Unfinished(w'.db, z) == {} &&
      forall o :: o in Unfinished(Run(START, es).db, z) ==> o in w'.db.hosts && w'.db.hosts[o].state.Ready?
  {
    hide Run, Resting, Unfinished, Potential, Calls, Flatten, Sound, Safe;
    Reachable(es);
    DrainableSound(Run(START, es), z, owner, d, x);
    PotentialBounds(Run(START, es).db, z);
    EveryDrainFinishes(Run(START, es), calls, z, owner, d, x);
    RunSplit(START, es, Flatten(calls));
  }

  lemma EveryRunCanFinish(es: seq<Event>, z: string, k: nat, owner: string, d: int, x: Executor) returns (more: seq<Event>)
    requires Resting(Run(START, es), z, owner, d, x)
    ensures Unfinished(Run(START, es + more).db, z) == {}
    ensures forall o :: o in Unfinished(Run(START, es).db, z) ==>
      o in Run(START, es + more).db.hosts && Run(START, es + more).db.hosts[o].state.Ready?
  {
    hide Safe, Resting, Run, Unfinished, Calls, Flatten;
    Reachable(es);
    var calls := SomeCalls(Run(START, es), 3 * |Unfinished(Run(START, es).db, z)|, k, z, owner, d, x);
    EveryRunFinishes(es, calls, z, owner, d, x);
    more := Flatten(calls);
  }
}
