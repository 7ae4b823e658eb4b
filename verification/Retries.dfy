// What a failed call leaves behind: its category and a free operation, and nothing else.

module Retries {
  import opened Options
  import opened Capacity
  import opened Coupling
  import opened AdmissionSound
  import opened Protocol
  import opened Safety
  import opened Guarantees

  // The failure category of the external call the controller is waiting for.
  function Category(pc: Pc): Option<string> {
    if pc.Launch? then Some("provider_launch")
    else if pc.AtRegistering? || pc.Bound? || pc.Delivering? then Some("host_enrollment")
    else if pc.AtConverging? then Some("readiness_check")
    else if pc.Finalizing? || pc.Lifting? then Some("readiness_handoff")
    else None
  }

  predicate Unexpired(db: Db, t: Token) {
    t.op in db.ops && db.ops[t.op].fence == t.fence && db.ops[t.op].lease.Some? && db.ops[t.op].lease.value.owner == t.owner &&
    db.ops[t.op].lease.value.until > db.clock
  }

  // The operation as the failed controller leaves it: free again, and back before the launch
  // boundary exactly when the launch is what failed.
  function GivenBack(op: Op, pc: Pc): Op
    requires Category(pc).Some?
  {
    op.(error := Category(pc).value, state := if pc.Launch? then Pending else Launching, lease := None)
  }

  lemma OnlyMine(w: World, k: nat)
    requires Safe(w) && k in w.workers && Unexpired(w.db, w.workers[k].t)
    ensures !LockedByOther(w, k, w.workers[k].t.op)
  {
    hide Sound, WriteAhead, Stands, MemberReady, TopologyReady;
    var o := w.workers[k].t.op;
    forall j | j in w.workers && j != k ensures !LockedByOther(w, k, o) || !LockedBy(w, j, o) {
      assert WorkerOk(w.db, w.workers[j]);
    }
  }

  lemma PutsOp(db: Db, o: Id, op: Op)
    requires HasRow(db, o)
    ensures PutRow(db, o, RowOf(db, o).(op := op)) == db.(ops := db.ops[o := op])
  {
    var d := PutRow(db, o, RowOf(db, o).(op := op));
    assert d.hosts == db.hosts && d.resv == db.resv && d.bindings == db.bindings;
  }

  // Where the failing controller stands and what its record allows.
  lemma WaitingStands(w: World, k: nat)
    requires Safe(w) && k in w.workers && Category(w.workers[k]).Some? && Unexpired(w.db, w.workers[k].t)
    ensures var pc := w.workers[k]; HasRow(w.db, pc.t.op) && pc.t.host == pc.t.op && Stands(pc, RowOf(w.db, pc.t.op))
  {
    hide Sound, WriteAhead, MemberReady, TopologyReady, Stands;
    assert WorkerOk(w.db, w.workers[k]);
  }

  lemma LeasedIsActive(w: World, o: Id)
    requires Safe(w) && HasRow(w.db, o) && w.db.ops[o].lease.Some?
    ensures Active(w.db.ops[o]) && RowOf(w.db, o).op.host == o
  {
    hide PoolBound, Typed, NodesDistinct, Evidence, WriteAhead, Workers;
    assert RowOk(RowOf(w.db, o), o);
    assert LinkedOp(w.db, o);
  }

  lemma FailingStands(w: World, k: nat)
    requires Safe(w) && k in w.workers && Category(w.workers[k]).Some? && Unexpired(w.db, w.workers[k].t)
    ensures var t := w.workers[k].t;
      HasRow(w.db, t.op) && RowOf(w.db, t.op).op.host == t.host && Active(w.db.ops[t.op]) &&
      (Handed(RowOf(w.db, t.op).host.state) <==> !w.workers[k].Launch?)
  {
    hide Safe;
    WaitingStands(w, k);
    LeasedIsActive(w, w.workers[k].t.op);
  }

  lemma RecordsFailure(db: Db, t: Token, category: string)
    requires HasRow(db, t.op) && RowOf(db, t.op).op.host == t.host && Unexpired(db, t) && Active(db.ops[t.op]) && 0 < |category| <= 80
    ensures Permits(db, t, RecordFailure(category))
    ensures Perform(db, t, RecordFailure(category)) == db.(ops := db.ops[t.op := db.ops[t.op].(error := category)])
  {
    hide MemberReady, TopologyReady, DominatorOf, PutRow;
    PutsOp(db, t.op, db.ops[t.op].(error := category));
  }

  lemma GivesBack(db: Db, t: Token)
    requires HasRow(db, t.op) && RowOf(db, t.op).op.host == t.host && Unexpired(db, t) && Active(db.ops[t.op])
    ensures Permits(db, t, ReleaseLease)
    ensures Perform(db, t, ReleaseLease) ==
      db.(ops := db.ops[t.op := db.ops[t.op].(state := if Handed(RowOf(db, t.op).host.state) then Launching else Pending, lease := None)])
  {
    hide MemberReady, TopologyReady, DominatorOf, PutRow;
    PutsOp(db, t.op, db.ops[t.op].(state := if Handed(RowOf(db, t.op).host.state) then Launching else Pending, lease := None));
  }

  lemma ReturnsError(w: World, k: nat)
    requires k in w.workers && Category(w.workers[k]).Some?
    ensures Apply(w, Return(k, Error)) == w.(workers := w.workers[k := Failing(w.workers[k].t, Category(w.workers[k]).value)])
  {
  }

  lemma Issues(w: World, k: nat)
    ensures Apply(w, Issue(k)) == ApplyIssue(w, k)
  {
    hide ApplyIssue;
  }

  lemma FailsOn(w: World, k: nat, db: Db, t: Token, category: string)
    requires k in w.workers && w.workers[k] == Failing(t, category) && !LockedByOther(w, k, t.op)
    requires Permits(w.db, t, RecordFailure(category)) && Perform(w.db, t, RecordFailure(category)) == db
    ensures ApplyIssue(w, k) == w.(db := db, workers := w.workers[k := Yielding(t)])
  {
    hide Permits, Perform, LockedByOther;
  }

  lemma YieldsOn(w: World, k: nat, db: Db, t: Token)
    requires k in w.workers && w.workers[k] == Yielding(t) && !LockedByOther(w, k, t.op)
    requires Permits(w.db, t, ReleaseLease) && Perform(w.db, t, ReleaseLease) == db
    ensures ApplyIssue(w, k) == w.(db := db, workers := w.workers - {k})
  {
    hide Permits, Perform, LockedByOther;
  }

  lemma OthersSame(w: World, w': World, k: nat, o: Id)
    requires w'.workers.Keys == w.workers.Keys && forall j :: j in w.workers && j != k ==> w'.workers[j] == w.workers[j]
    ensures LockedByOther(w', k, o) == LockedByOther(w, k, o)
  {
    forall j | j in w.workers && j != k ensures LockedBy(w', j, o) == LockedBy(w, j, o) {}
  }

  lemma FailureRecorded(w: World, k: nat, t: Token, category: string, w': World)
    requires k in w.workers && w.workers[k] == Failing(t, category) && !LockedByOther(w, k, t.op) && 0 < |category| <= 80
    requires HasRow(w.db, t.op) && RowOf(w.db, t.op).op.host == t.host && Unexpired(w.db, t) && Active(w.db.ops[t.op])
    requires w' == w.(db := w.db.(ops := w.db.ops[t.op := w.db.ops[t.op].(error := category)]), workers := w.workers[k := Yielding(t)])
    ensures Apply(w, Issue(k)) == w' && !LockedByOther(w', k, t.op)
  {
    hide Apply, ApplyIssue, Permits, Perform, LockedByOther;
    RecordsFailure(w.db, t, category);
    FailsOn(w, k, w'.db, t, category);
    Issues(w, k);
    OthersSame(w, w', k, t.op);
  }

  lemma LeaseGivenBack(w: World, k: nat, t: Token)
    requires k in w.workers && w.workers[k] == Yielding(t) && !LockedByOther(w, k, t.op)
    requires HasRow(w.db, t.op) && RowOf(w.db, t.op).op.host == t.host && Unexpired(w.db, t) && Active(w.db.ops[t.op])
    ensures var state := if Handed(RowOf(w.db, t.op).host.state) then Launching else Pending;
      Apply(w, Issue(k)) ==
      w.(db := w.db.(ops := w.db.ops[t.op := w.db.ops[t.op].(state := state, lease := None)]), workers := w.workers - {k})
  {
    hide Apply, ApplyIssue, Permits, Perform, LockedByOther;
    GivesBack(w.db, t);
    YieldsOn(w, k, Perform(w.db, t, ReleaseLease), t);
    Issues(w, k);
  }

  // In every run, whatever call fails, two store calls later its category is recorded, the operation
  // is free for the next lease, and the host, its credit and every other record are as they were.
  lemma FailedCallIsRetryable(es: seq<Event>, k: nat)
    requires var w := Run(START, es); k in w.workers && Category(w.workers[k]).Some? && Unexpired(w.db, w.workers[k].t)
    ensures var w := Run(START, es);
      var pc := w.workers[k];
      Run(START, es + [Return(k, Error), Issue(k), Issue(k)]) ==
      w.(db := w.db.(ops := w.db.ops[pc.t.op := GivenBack(w.db.ops[pc.t.op], pc)]), workers := w.workers - {k})
  {
    hide Run, Safe, Apply, LockedByOther;
    var w := Run(START, es);
    var t, c := w.workers[k].t, Category(w.workers[k]).value;
    Reachable(es);
    OnlyMine(w, k);
    FailingStands(w, k);
    var w1 := w.(workers := w.workers[k := Failing(t, c)]);
    ReturnsError(w, k);
    OthersSame(w, w1, k, t.op);
    var w2 := w1.(db := w.db.(ops := w.db.ops[t.op := w.db.ops[t.op].(error := c)]), workers := w1.workers[k := Yielding(t)]);
    FailureRecorded(w1, k, t, c, w2);
    LeaseGivenBack(w2, k, t);
    ThreeMore(es, Return(k, Error), Issue(k), Issue(k));
    assert w2.workers - {k} == w.workers - {k};
  }

  lemma ThreeMore(es: seq<Event>, a: Event, b: Event, c: Event)
    ensures Run(START, es + [a, b, c]) == Apply(Apply(Apply(Run(START, es), a), b), c)
  {
    hide Apply;
    var all := es + [a, b, c];
    assert all[..|es| + 2][..|es| + 1][..|es|] == es;
    assert all[..|es| + 2] == es + [a, b] && all[..|es| + 1] == es + [a];
    assert (es + [a, b])[..|es| + 1] == es + [a] && (es + [a])[..|es|] == es;
    assert Run(START, es + [a]) == Apply(Run(START, es), a);
    assert Run(START, es + [a, b]) == Apply(Run(START, es + [a]), b);
  }
}
