// The registered-capacity guard of SetTarget (internal/capacity/store.go) counts registered hosts
// without locking them. What that lets happen between the count and the commit, and exactly when
// the committed target still covers every registered host.

module Guard {
  import opened Options
  import opened Int64
  import opened Counting
  import opened Capacity
  import opened Admission
  import opened Coupling
  import opened AdmissionSound
  import opened Progress
  import opened Protocol
  import opened Safety
  import opened Guarantees
  import opened Accounting
  import opened Locks

  // ---------- What registers a host ----------

  // A controller's write that moves a host of the group from BOOTING to REGISTERING.
  predicate Registers(w: World, e: Event, gid: string) {
    e.Issue? && e.worker in w.workers &&
    var pc := w.workers[e.worker];
    pc.AtBooting? && !LockedByOther(w, e.worker, pc.t.op) && Permits(w.db, pc.t, SetState(Booting, Registering)) &&
    w.db.hosts[w.db.ops[pc.t.op].host].group == gid
  }

  lemma RegisteredSame(db: Db, db': Db, gid: string)
    requires Linked(db) && Linked(db') && forall h: nat :: RegisteredOf(db', gid)(h) == RegisteredOf(db, gid)(h)
    ensures RegisteredHosts(db', gid) == RegisteredHosts(db, gid)
  {
    HostsBelowNext(db);
    HostsBelowNext(db');
    hide Linked;
    var n := if db.next < db'.next then db'.next else db.next;
    SumExtend(RegisteredOf(db, gid), db.next, n);
    SumExtend(RegisteredOf(db', gid), db'.next, n);
    SumSame(RegisteredOf(db, gid), RegisteredOf(db', gid), n);
  }

  lemma CancelUnregistered(db: Db, gid: string, cancel: set<Id>, of: string, h: nat)
    requires cancel <= Cancellable(db, gid) && cancel <= db.ops.Keys
    ensures RegisteredOf(CancelOps(db, cancel), of)(h) == RegisteredOf(db, of)(h)
  {
    if h in HostsOf(db, cancel) {
      var o :| o in cancel && db.ops[o].host == h;
      assert IsCancellable(db, gid, o);
    }
  }

  lemma MarkUnregistered(db: Db, mark: set<Id>, of: string, h: nat)
    ensures RegisteredOf(MarkExcess(db, mark), of)(h) == RegisteredOf(db, of)(h)
  {
  }

  lemma CancelledUnregistered(db: Db, gid: string, pick: Pick, of: string, h: nat)
    requires pick.cancel <= Cancellable(db, gid) && pick.cancel <= db.ops.Keys
    ensures RegisteredOf(CancelWith(db, pick), of)(h) == RegisteredOf(db, of)(h)
  {
    hide CancelOps, MarkExcess, RegisteredOf, Cancellable;
    CancelUnregistered(db, gid, pick.cancel, of, h);
    MarkUnregistered(CancelOps(db, pick.cancel), pick.mark, of, h);
  }

  lemma IntentUnregistered(db: Db, gid: string, g: Group, revision: int, of: string, h: nat)
    requires forall i :: i in db.hosts ==> i < db.next
    ensures RegisteredOf(AddIntent(db, gid, g, revision), of)(h) == RegisteredOf(db, of)(h)
    ensures var d := AddIntent(db, gid, g, revision); forall i :: i in d.hosts ==> i < d.next
  {
  }

  lemma {:induction false} IntentsUnregistered(db: Db, gid: string, g: Group, revision: int, count: nat, of: string, h: nat)
    requires forall i :: i in db.hosts ==> i < db.next
    ensures RegisteredOf(AddIntents(db, gid, g, revision, count), of)(h) == RegisteredOf(db, of)(h)
    ensures var d := AddIntents(db, gid, g, revision, count); forall i :: i in d.hosts ==> i < d.next
  {
    hide AddIntent, RegisteredOf;
    if count > 0 {
      IntentsUnregistered(db, gid, g, revision, count - 1, of, h);
      IntentUnregistered(AddIntents(db, gid, g, revision, count - 1), gid, g, revision, of, h);
    }
  }

  lemma AdmitUnregistered(w: World, req: CapacityRequest, obs: Observed, pick: Pick, of: string, h: nat)
    requires Linked(w.db)
    ensures RegisteredOf(ApplyAdmit(w, req, obs, pick).db, of)(h) == RegisteredOf(w.db, of)(h)
  {
    hide Linked, AddIntents, CancelWith, Cancellable, Markable, CancelOps, Refusal;
    HostsBelowNext(w.db);
    if Admits(w.db, req, obs, pick) {
      var g := w.db.groups[req.group];
      var d := Retarget(w.db, req, g);
      assert RegisteredOf(d, of)(h) == RegisteredOf(w.db, of)(h);
      if Delta(g, req) > 0 {
        IntentsUnregistered(d, req.group, g, Wrap(g.revision + 1), Delta(g, req), of, h);
      } else if Delta(g, req) < 0 {
        CancellableSame(w.db, d, req.group);
        CancelledUnregistered(d, req.group, pick, of, h);
      }
    }
  }

  lemma CancellableSame(db: Db, d: Db, gid: string)
    requires d.ops == db.ops && d.hosts == db.hosts && d.resv == db.resv
    ensures Cancellable(d, gid) == Cancellable(db, gid)
  {
  }

  // A controller's write registers exactly its own host, and only from BOOTING.
  lemma EffectRegisters(pc: Pc, r: Row, s: Site)
    requires WriteAt(pc).Some? && RowOk(r, pc.t.op) && Stands(pc, r) && RowPermits(r, pc.t, WriteAt(pc).value, s)
    ensures var h := Effect(r, pc.t, WriteAt(pc).value, s).host;
      h.group == r.host.group && One(IsRegistered(h.state)) == One(IsRegistered(r.host.state)) + One(pc.AtBooting?)
  {
  }

  lemma HostRegisters(db: Db, d: Db, o: Id, gid: string, up: bool)
    requires o in db.hosts && o < db.next && d.next == db.next && o in d.hosts && d.hosts == db.hosts[o := d.hosts[o]]
    requires d.hosts[o].group == db.hosts[o].group && One(IsRegistered(d.hosts[o].state)) == One(IsRegistered(db.hosts[o].state)) + One(up)
    ensures RegisteredHosts(d, gid) == RegisteredHosts(db, gid) + One(up && db.hosts[o].group == gid)
  {
    hide IsRegistered;
    SumPoint(RegisteredOf(db, gid), RegisteredOf(d, gid), db.next, o);
  }

  lemma PutRegisters(db: Db, o: Id, r: Row, gid: string, up: bool)
    requires Linked(db) && HasRow(db, o) && db.ops[o].host == o && SameIdentity(RowOf(db, o), r)
    requires One(IsRegistered(r.host.state)) == One(IsRegistered(db.hosts[o].state)) + One(up)
    ensures RegisteredHosts(PutRow(db, o, r), gid) == RegisteredHosts(db, gid) + One(up && db.hosts[o].group == gid)
  {
    hide Linked, IsRegistered, RegisteredHosts;
    HostsBelowNext(db);
    HostRegisters(db, PutRow(db, o, r), o, gid, up);
  }

  lemma WriteRegisters(db: Db, pc: Pc, gid: string)
    requires Sound(db) && WorkerOk(db, pc) && WriteAt(pc).Some? && Permits(db, pc.t, WriteAt(pc).value)
    ensures pc.t.op in db.ops && db.ops[pc.t.op].host in db.hosts
    ensures RegisteredHosts(Perform(db, pc.t, WriteAt(pc).value), gid) ==
      RegisteredHosts(db, gid) + One(pc.AtBooting? && db.hosts[db.ops[pc.t.op].host].group == gid)
  {
    hide Sound, Linked, Stands, RowOk, RowPermits, Effect, WriteAt, RegisteredHosts, PutRow, SiteOf, Secured, SameIdentity, KeepsNode;
    RowOkAt(db, pc.t.op);
    HostOfOp(db, pc.t.op);
    PermitsLive(db, pc.t, WriteAt(pc).value);
    var r, site := RowOf(db, pc.t.op), SiteOf(db, pc.t, WriteAt(pc).value);
    EffectRegisters(pc, r, site);
    EffectFrame(r, pc.t, WriteAt(pc).value, site);
    PutRegisters(db, pc.t.op, Effect(r, pc.t, WriteAt(pc).value, site), gid, pc.AtBooting?);
  }

  lemma IssueRegisters(w: World, k: nat, gid: string)
    requires Safe(w)
    ensures RegisteredHosts(ApplyIssue(w, k).db, gid) == RegisteredHosts(w.db, gid) + One(Registers(w, Issue(k), gid))
  {
    hide Sound, WriteAhead, WorkerOk, Permits, Perform, RegisteredHosts, LockedByOther;
    if k in w.workers && WriteAt(w.workers[k]).Some? && Permits(w.db, w.workers[k].t, WriteAt(w.workers[k]).value) {
      WriteRegisters(w.db, w.workers[k], gid);
    }
  }

  lemma KeptRegistered(db: Db, db': Db, gid: string)
    requires db'.hosts == db.hosts && Linked(db) && Linked(db')
    ensures RegisteredHosts(db', gid) == RegisteredHosts(db, gid)
  {
    hide Linked, RegisteredHosts;
    RegisteredSame(db, db', gid);
  }

  lemma AdmitRegisters(w: World, e: Event, gid: string)
    requires Safe(w) && Safe(Apply(w, e)) && e.Admit?
    ensures RegisteredHosts(Apply(w, e).db, gid) == RegisteredHosts(w.db, gid)
  {
    hide Safe, Linked, RegisteredHosts, ApplyAdmit, RegisteredOf;
    SafeLinked(w);
    SafeLinked(Apply(w, e));
    forall h: nat ensures RegisteredOf(Apply(w, e).db, gid)(h) == RegisteredOf(w.db, gid)(h) {
      AdmitUnregistered(w, e.req, e.obs, e.pick, gid, h);
    }
    RegisteredSame(w.db, Apply(w, e).db, gid);
  }

  // Every event but Issue and Admit leaves the hosts alone.
  lemma HostsKept(w: World, e: Event)
    requires !e.Issue? && !e.Admit?
    ensures Apply(w, e).db.hosts == w.db.hosts
  {
    hide ApplyTake, ApplyOpen, ApplyReadHost, ApplyLift, ApplyConfirm, ApplyExtend, Returned, TopologyFree,
      ApplyRemoveMany, ApplyRemoveNamed, CreatePool, CreateGroup, UpdateTemplate;
    match e {
      case RemoveMany(_, _) => RemovalHosts(w, e);
      case RemoveNamed(_, _, _) => RemovalHosts(w, e);
      case NewPool(_, _) => CatalogHosts(w, e);
      case NewGroup(_, _) => CatalogHosts(w, e);
      case NewTemplate(_, _, _) => CatalogHosts(w, e);
      case Take(_, _, _, _) => LeaseHosts(w, e);
      case Extend(_, _) => LeaseHosts(w, e);
      case ReadHost(_) => MovesKeepTables(w, e);
      case Open(_) => MovesKeepTables(w, e);
      case Lift(_) => MovesKeepTables(w, e);
      case Confirm(_) => MovesKeepTables(w, e);
      case _ =>
    }
  }

  // Each event registers one host of the group or none.
  lemma EventRegisters(w: World, e: Event, gid: string)
    requires Safe(w)
    ensures RegisteredHosts(Apply(w, e).db, gid) == RegisteredHosts(w.db, gid) + One(Registers(w, e, gid))
  {
    hide Safe, Apply, Linked, RegisteredHosts, Progresses, ApplyIssue, Permits, LockedByOther;
    StepSafe(w, e);
    SafeLinked(w);
    SafeLinked(Apply(w, e));
    if e.Issue? {
      EventIs(w, e);
      IssueRegisters(w, e.worker, gid);
    } else if e.Admit? {
      AdmitRegisters(w, e, gid);
    } else {
      HostsKept(w, e);
      KeptRegistered(w.db, Apply(w, e).db, gid);
    }
  }

  // ---------- From the count to the commit ----------

  // The step lets such a write through.
  predicate StepRegisters(s: Split, step: Step, gid: string) {
    step.Other? && !Blocked(s, step.event) && Registers(s.w, step.event, gid)
  }

  // BOOTING to REGISTERING moves of the group along an interleaving.
  function Registrations(s: Split, steps: seq<Step>, gid: string): int {
    if steps == [] then 0
    else
      var before := steps[..|steps| - 1];
      Registrations(s, before, gid) + One(StepRegisters(Play(s, before), steps[|steps| - 1], gid))
  }

  lemma StepCounts(s: Split, step: Step, gid: string)
    requires Safe(s.w) && Consistent(s)
    ensures RegisteredHosts(Advance(s, step).w.db, gid) == RegisteredHosts(s.w.db, gid) + One(StepRegisters(s, step, gid))
  {
    hide Safe, Consistent, Apply, Blocked, CanFinish, RegisteredHosts, Registers, Finished;
    match step {
      case Finish(k) =>
        if k in s.txs && CanFinish(s.txs[k]) {
          FinishKeeps(s, k);
          EventRegisters(s.w, AdmitOf(s.txs[k]), gid);
          AdmitsRegisterNone(s.w, AdmitOf(s.txs[k]), gid);
        }
      case Other(e) =>
        if !Blocked(s, e) { EventRegisters(s.w, e, gid); }
      case _ => StatementsKeep(s, step);
    }
  }

  lemma AdmitsRegisterNone(w: World, e: Event, gid: string)
    requires e.Admit?
    ensures !Registers(w, e, gid)
  {
  }

  lemma StepKeeps(s: Split, step: Step)
    requires Safe(s.w) && Consistent(s)
    ensures Safe(Advance(s, step).w) && Consistent(Advance(s, step))
  {
    hide Safe, Consistent, Advance, Run, Progresses;
    StepRefines(s, step);
    RunSafe(s.w, EventsOf(s, step));
  }

  lemma {:induction false} RegistrationsCount(s: Split, steps: seq<Step>, gid: string)
    requires Safe(s.w) && Consistent(s)
    ensures Safe(Play(s, steps).w) && Consistent(Play(s, steps))
    ensures RegisteredHosts(Play(s, steps).w.db, gid) == RegisteredHosts(s.w.db, gid) + Registrations(s, steps, gid)
  {
    hide Safe, Consistent, Advance, RegisteredHosts, StepRegisters;
    if steps != [] {
      var before := steps[..|steps| - 1];
      RegistrationsCount(s, before, gid);
      StepCounts(Play(s, before), steps[|steps| - 1], gid);
      StepKeeps(Play(s, before), steps[|steps| - 1]);
    }
  }

  // The transaction is open after every step.
  predicate StaysOpen(s: Split, steps: seq<Step>, k: nat) {
    forall i :: 0 <= i <= |steps| ==> k in Play(s, steps[..i]).txs
  }

  // While it is open its request and the policy it read stay the same.
  lemma TxKept(s: Split, step: Step, k: nat)
    requires k in s.txs && k in Advance(s, step).txs
    ensures Advance(s, step).txs[k].req == s.txs[k].req && Advance(s, step).txs[k].g == s.txs[k].g
  {
    hide Apply, Blocked, Early, Late, Used, Cancellable, PickOk, RegisteredHosts, GroupHeld, PoolHeld, CanFinish, Commit, TypedRequest;
  }

  lemma OpenBefore(s: Split, steps: seq<Step>, k: nat)
    requires StaysOpen(s, steps, k)
    ensures k in Play(s, steps).txs
    ensures steps != [] ==> StaysOpen(s, steps[..|steps| - 1], k)
  {
    hide Play;
    assert steps[..|steps|] == steps;
    if steps != [] {
      var before := steps[..|steps| - 1];
      forall i | 0 <= i <= |before| ensures k in Play(s, before[..i]).txs { assert before[..i] == steps[..i]; }
    }
  }

  lemma {:induction false} OpenKeepsTx(s: Split, steps: seq<Step>, k: nat)
    requires StaysOpen(s, steps, k)
    ensures k in s.txs && k in Play(s, steps).txs
    ensures Play(s, steps).txs[k].req == s.txs[k].req && Play(s, steps).txs[k].g == s.txs[k].g
  {
    hide Advance, StaysOpen;
    OpenBefore(s, steps, k);
    if steps != [] {
      var before := steps[..|steps| - 1];
      OpenKeepsTx(s, before, k);
      TxKept(Play(s, before), steps[|steps| - 1], k);
    }
  }

  // What a finished decrease leaves in its group's row.
  lemma FinishTargets(s: Split, k: nat)
    requires Safe(s.w) && Consistent(s) && k in s.txs && CanFinish(s.txs[k])
    ensures var db, req := Advance(s, Finish(k)).w.db, s.txs[k].req;
      req.group in db.groups && db.groups[req.group].target == req.desired
  {
    hide Safe, Sound, TxOk, Apply, Admits, Commit, PickOf;
    SafeSound(s.w);
    var tx := s.txs[k];
    FinishRefines(s, k);
    AdmitGroups(s.w.db, tx.req, Observed(tx.enabled, tx.registered), PickOf(tx));
    AdmitsDb(s.w, tx.req, Observed(tx.enabled, tx.registered), PickOf(tx));
  }

  lemma AdmitsDb(w: World, req: CapacityRequest, obs: Observed, pick: Pick)
    requires Admits(w.db, req, obs, pick)
    ensures Apply(w, Admit(req, obs, pick)).db == SetTarget(w.db, req, obs, pick).0
  {
    hide SetTarget, Refusal, PickFits;
  }

  lemma Interleaved(steps: seq<Step>)
    ensures Safe(Play(IDLE, steps).w) && Consistent(Play(IDLE, steps))
  {
    hide Safe, Consistent, Play, Run;
    InterleavingsAreRuns(steps);
    Reachable(EventsOfAll(IDLE, steps));
  }

  lemma CheckReads(s: Split, k: nat)
    requires k in s.txs && s.txs[k].PoolLocked? && k in Advance(s, Check(k)).txs
    ensures Advance(s, Check(k)).w == s.w && Advance(s, Check(k)).txs[k].req == s.txs[k].req
    ensures Delta(s.txs[k].g, s.txs[k].req) < 0 ==> RegisteredHosts(s.w.db, s.txs[k].req.group) <= s.txs[k].req.desired
  {
    hide Fits, Used, RegisteredHosts, Delta;
  }

  // The tables once transaction k has counted, gone through the steps in between and committed.
  function Committed(s: Split, k: nat, between: seq<Step>): Db {
    Advance(Play(Advance(s, Check(k)), between), Finish(k)).w.db
  }

  // In every interleaving, whatever happens between the count and the commit and whatever rows are
  // cancelled and marked: the committed target covers every registered host exactly when the
  // group's registrations in between number at most what the count left room for.
  lemma GuardHoldsExactly(before: seq<Step>, k: nat, between: seq<Step>)
    requires k in Play(IDLE, before).txs && Play(IDLE, before).txs[k].PoolLocked?
    requires StaysOpen(Advance(Play(IDLE, before), Check(k)), between, k)
    requires k in Play(Advance(Play(IDLE, before), Check(k)), between).txs && CanFinish(Play(Advance(Play(IDLE, before), Check(k)), between).txs[k])
    ensures var s := Play(IDLE, before);
      var req, db := s.txs[k].req, Committed(s, k, between);
      req.group in db.groups && db.groups[req.group].target == req.desired &&
      (db.groups[req.group].target >= RegisteredHosts(db, req.group) <==>
        Registrations(Advance(s, Check(k)), between, req.group) <= req.desired - RegisteredHosts(s.w.db, req.group)) &&
      (Delta(s.txs[k].g, req) < 0 ==> 0 <= req.desired - RegisteredHosts(s.w.db, req.group))
  {
    hide Safe, Consistent, Advance, Play, StaysOpen, RegisteredHosts, Registrations, CanFinish, StepRegisters;
    var s := Play(IDLE, before);
    var counted := Advance(s, Check(k));
    var done := Play(counted, between);
    var gid := s.txs[k].req.group;
    Interleaved(before);
    StepKeeps(s, Check(k));
    OpenKeepsTx(counted, between, k);
    CheckReads(s, k);
    RegistrationsCount(counted, between, gid);
    FinishTargets(done, k);
    StepCounts(done, Finish(k), gid);
    FinishRegistersNone(done, k, gid);
  }

  lemma FinishRegistersNone(s: Split, k: nat, gid: string)
    ensures !StepRegisters(s, Finish(k), gid)
  {
  }

  lemma {:induction false} NoIssueNoRegistration(s: Split, steps: seq<Step>, gid: string)
    requires forall i :: 0 <= i < |steps| ==> !(steps[i].Other? && steps[i].event.Issue?)
    ensures Registrations(s, steps, gid) == 0
  {
    hide Play, Blocked, Permits, LockedByOther;
    if steps != [] { NoIssueNoRegistration(s, steps[..|steps| - 1], gid); }
  }

  // Undisturbed by the controllers' writes, the guard holds.
  lemma GuardHoldsUndisturbed(before: seq<Step>, k: nat, between: seq<Step>)
    requires k in Play(IDLE, before).txs && Play(IDLE, before).txs[k].PoolLocked?
    requires StaysOpen(Advance(Play(IDLE, before), Check(k)), between, k)
    requires k in Play(Advance(Play(IDLE, before), Check(k)), between).txs && CanFinish(Play(Advance(Play(IDLE, before), Check(k)), between).txs[k])
    requires Delta(Play(IDLE, before).txs[k].g, Play(IDLE, before).txs[k].req) < 0
    requires forall i :: 0 <= i < |between| ==> !(between[i].Other? && between[i].event.Issue?)
    ensures var s := Play(IDLE, before);
      var req, db := s.txs[k].req, Committed(s, k, between);
      req.group in db.groups && db.groups[req.group].target == req.desired && RegisteredHosts(db, req.group) <= req.desired
  {
    hide Advance, Play, StaysOpen, RegisteredHosts, Registrations, CanFinish, Committed, Delta;
    GuardHoldsExactly(before, k, between);
    NoIssueNoRegistration(Advance(Play(IDLE, before), Check(k)), between, Play(IDLE, before).txs[k].req.group);
  }

  // ---------- How far a commit can fall short ----------

  lemma LiveSame(db: Db, db': Db, gid: string)
    requires Linked(db) && Linked(db') && db'.hosts == db.hosts
    ensures LiveHosts(db', gid) == LiveHosts(db, gid)
  {
    HostsBelowNext(db);
    HostsBelowNext(db');
    hide Linked;
    var n := if db.next < db'.next then db'.next else db.next;
    SumExtend(LiveOf(db, gid), db.next, n);
    SumExtend(LiveOf(db', gid), db'.next, n);
    SumSame(LiveOf(db, gid), LiveOf(db', gid), n);
  }

  lemma IssueLive(w: World, k: nat, gid: string)
    requires Safe(w)
    ensures LiveHosts(ApplyIssue(w, k).db, gid) == LiveHosts(w.db, gid)
  {
    hide Sound, Workers, WriteAhead, Permits, LiveHosts, LockedByOther, Effect, RowPermits, RowOk, PutRow, SameCounts, SiteOf;
    if k in w.workers && WriteAt(w.workers[k]).Some? && Permits(w.db, w.workers[k].t, WriteAt(w.workers[k]).value) {
      var t, write := w.workers[k].t, WriteAt(w.workers[k]).value;
      PermitsLive(w.db, t, write);
      RowOkAt(w.db, t.op);
      EffectCounts(RowOf(w.db, t.op), t, write, SiteOf(w.db, t, write));
      PutCounts(w.db, t.op, Effect(RowOf(w.db, t.op), t, write, SiteOf(w.db, t, write)));
      CountsSame(w.db, Perform(w.db, t, write), gid);
    }
  }

  lemma EventLive(w: World, e: Event, gid: string)
    requires Safe(w) && !e.Admit?
    ensures LiveHosts(Apply(w, e).db, gid) == LiveHosts(w.db, gid)
  {
    hide Safe, Apply, Linked, LiveHosts, Progresses, ApplyIssue;
    StepSafe(w, e);
    SafeLinked(w);
    SafeLinked(Apply(w, e));
    if e.Issue? {
      EventIs(w, e);
      IssueLive(w, e.worker, gid);
    } else {
      HostsKept(w, e);
      LiveSame(w.db, Apply(w, e).db, gid);
    }
  }

  // A commit takes its cancelled hosts off its own group and leaves the other groups alone.
  lemma FinishLive(s: Split, k: nat, gid: string)
    requires Safe(s.w) && Consistent(s) && k in s.txs && CanFinish(s.txs[k])
    ensures gid != s.txs[k].req.group ==> LiveHosts(Advance(s, Finish(k)).w.db, gid) == LiveHosts(s.w.db, gid)
    ensures gid == s.txs[k].req.group && Delta(s.txs[k].g, s.txs[k].req) < 0 ==>
      LiveHosts(Advance(s, Finish(k)).w.db, gid) == LiveHosts(s.w.db, gid) - |PickOf(s.txs[k]).cancel|
  {
    hide Safe, Sound, TxOk, Apply, Admits, Commit, PickOf, LiveHosts;
    SafeSound(s.w);
    var tx := s.txs[k];
    FinishRefines(s, k);
    OwnGroup(s.w.db, tx);
    AdmitCounts(s.w.db, tx.req, Observed(tx.enabled, tx.registered), PickOf(tx), gid);
    AdmitsDb(s.w, tx.req, Observed(tx.enabled, tx.registered), PickOf(tx));
  }

  // While a transaction holds its group row no host joins or leaves the group.
  lemma StepLive(s: Split, step: Step, k: nat)
    requires Safe(s.w) && Consistent(s) && k in s.txs && k in Advance(s, step).txs
    ensures LiveHosts(Advance(s, step).w.db, s.txs[k].req.group) == LiveHosts(s.w.db, s.txs[k].req.group)
  {
    hide Safe, TxOk, Apply, Blocked, CanFinish, LiveHosts, Finished;
    var gid := s.txs[k].req.group;
    match step {
      case Finish(j) =>
        if j in s.txs && CanFinish(s.txs[j]) {
          if j != k { FinishLive(s, j, gid); } else { FinishStalls(s, k); }
        }
      case Other(e) =>
        if !Blocked(s, e) {
          AdmitBlocked(s, e);
          EventLive(s.w, e, gid);
        }
      case _ => StatementsKeep(s, step);
    }
  }

  lemma FinishStalls(s: Split, k: nat)
    requires k in s.txs && CanFinish(s.txs[k]) && k in Finished(s, k).txs
    ensures Finished(s, k) == s
  {
    hide Commit;
  }

  lemma {:induction false} OpenLive(s: Split, steps: seq<Step>, k: nat)
    requires Safe(s.w) && Consistent(s) && StaysOpen(s, steps, k)
    ensures k in s.txs && LiveHosts(Play(s, steps).w.db, s.txs[k].req.group) == LiveHosts(s.w.db, s.txs[k].req.group)
  {
    hide Safe, Consistent, Advance, StaysOpen, LiveHosts, RegisteredHosts, Registrations;
    OpenKeepsTx(s, steps, k);
    OpenBefore(s, steps, k);
    if steps != [] {
      var before := steps[..|steps| - 1];
      OpenLive(s, before, k);
      OpenKeepsTx(s, before, k);
      RegistrationsCount(s, before, "");
      StepLive(Play(s, before), steps[|steps| - 1], k);
    }
  }

  lemma RegisteredAreLive(db: Db, gid: string)
    ensures RegisteredHosts(db, gid) <= LiveHosts(db, gid)
  {
    SumLess(RegisteredOf(db, gid), LiveOf(db, gid), db.next);
  }

  lemma LiveExceedsTarget(steps: seq<Step>, k: nat)
    requires k in Play(IDLE, steps).txs && Delta(Play(IDLE, steps).txs[k].g, Play(IDLE, steps).txs[k].req) < 0
    ensures var s := Play(IDLE, steps); LiveHosts(s.w.db, s.txs[k].req.group) > s.txs[k].req.desired
  {
    hide Safe, Sound, Play, Run, Delta, LiveHosts, UnmarkedHosts, TakenOff, Early, Late, Used, PickOk, Cancellable;
    Interleaved(steps);
    InterleavingsAreRuns(steps);
    var s := Play(IDLE, steps);
    SafeSound(s.w);
    NoOverflow(s.w.db, s.txs[k].req, s.txs[k].enabled);
    EarlyGroup(s.w.db, s.txs[k].req, s.txs[k].enabled);
    HostsAreConserved(EventsOfAll(IDLE, steps), s.txs[k].req.group);
  }

  // A bound known from the moment the group row is locked: the group's live hosts less those the
  // decrease cancels. The live hosts of a decreasing group outnumber its new target, so what keeps
  // the target covering is that all of them above it were cancelled.
  lemma UndercutIsBounded(before: seq<Step>, k: nat, between: seq<Step>)
    requires k in Play(IDLE, before).txs && Delta(Play(IDLE, before).txs[k].g, Play(IDLE, before).txs[k].req) < 0
    requires StaysOpen(Play(IDLE, before), between, k)
    requires k in Play(Play(IDLE, before), between).txs && CanFinish(Play(Play(IDLE, before), between).txs[k])
    ensures var s := Play(IDLE, before);
      var done := Play(s, between);
      var req, cancelled, db := s.txs[k].req, |PickOf(done.txs[k]).cancel|, Advance(done, Finish(k)).w.db;
      req.group in db.groups && db.groups[req.group].target == req.desired < LiveHosts(s.w.db, req.group) &&
      RegisteredHosts(db, req.group) <= LiveHosts(s.w.db, req.group) - cancelled &&
      (cancelled >= LiveHosts(s.w.db, req.group) - req.desired ==> RegisteredHosts(db, req.group) <= db.groups[req.group].target)
  {
    hide Safe, Consistent, Advance, Play, StaysOpen, RegisteredHosts, Registrations, CanFinish, LiveHosts, Delta, PickOf;
    var s := Play(IDLE, before);
    var done := Play(s, between);
    Interleaved(before);
    LiveExceedsTarget(before, k);
    RegistrationsCount(s, between, "");
    OpenKeepsTx(s, between, k);
    OpenLive(s, between, k);
    FinishTargets(done, k);
    FinishLive(done, k, s.txs[k].req.group);
    RegisteredAreLive(Advance(done, Finish(k)).w.db, s.txs[k].req.group);
  }
}
