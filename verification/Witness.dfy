// The machine is not idle: from the empty store, creating a pool, a group and its topology and
// admitting one node leads, through the drain, to a host that is READY, whatever the names are.

module Witness {
  import opened Options
  import opened Int64
  import opened Counting
  import opened Capacity
  import opened Admission
  import opened Protocol
  import opened Safety
  import opened Guarantees
  import opened Drain

  datatype Names = Names(pool: string, group: string, cluster: string, zone: string, template: string, request: string, owner: string)

  predicate Given(n: Names) {
    n.pool != "" && n.group != "" && n.cluster != "" && n.template != "" && n.request != ""
  }

  const LIMIT := Resources(1, 1, 1)

  function Policy(n: Names): Group { Group(n.cluster, n.zone, n.pool, 0, 1, n.template, 1, 1, true, 0, 0) }

  function Increase(n: Names): CapacityRequest { CapacityRequest(n.group, n.request, n.cluster, 0, 1, n.template) }

  function Setting(n: Names): Event {
    Topology(map[Place(n.cluster, n.zone) := Membership(true, true)], map[n.zone := Zone(true, true, n.zone, n.zone)],
             map[n.cluster := true], map[n.zone := n.owner])
  }

  function GrowByOne(n: Names): Event { Admit(Increase(n), Observed(true, 0), Pick({}, {})) }

  // The tables after the set-up, and after admitting one node.
  function Furnished(n: Names): Db {
    EMPTY.(pools := map[n.pool := Pool(LIMIT, true)], groups := map[n.group := Policy(n)],
           members := Setting(n).members, zones := Setting(n).zones, clusters := Setting(n).clusters, dominators := Setting(n).dominators)
  }

  function Enlarged(n: Names): Db { AddIntent(Retarget(Furnished(n), Increase(n), Policy(n)), n.group, Policy(n), 1) }

  lemma SetUp(n: Names)
    requires Given(n)
    ensures Apply(Apply(Apply(START, NewPool(n.pool, LIMIT)), NewGroup(n.group, Policy(n))), Setting(n)) == START.(db := Furnished(n))
  {
    var a := Apply(START, NewPool(n.pool, LIMIT));
    assert a == START.(db := EMPTY.(pools := map[n.pool := Pool(LIMIT, true)]));
    var b := Apply(a, NewGroup(n.group, Policy(n)));
    assert b == a.(db := a.db.(groups := map[n.group := Policy(n)]));
    assert TopologyFree(b, Setting(n));
  }

  // The set-up as a run.
  lemma FurnishedRun(n: Names) returns (es: seq<Event>)
    requires Given(n)
    ensures Run(START, es) == START.(db := Furnished(n)) && forall i :: 0 <= i < |es| ==> !es[i].Admit?
  {
    hide Apply, Furnished;
    var pool, group := NewPool(n.pool, LIMIT), NewGroup(n.group, Policy(n));
    SetUp(n);
    var a := Then(START, [], START, pool, Apply(START, pool));
    var b := Then(START, a, Apply(START, pool), group, Apply(Apply(START, pool), group));
    es := Then(START, b, Apply(Apply(START, pool), group), Setting(n), START.(db := Furnished(n)));
  }

  lemma Wraps()
    ensures Wrap(0) == 0 && Wrap(1) == 1
  {
  }

  lemma FitsOne(n: Names)
    ensures Fits(Policy(n), LIMIT, NOTHING, 1)
  {
    hide Wrap;
    Wraps();
    assert MAX / 1 == MAX;
  }

  lemma NotRefused(n: Names)
    requires Given(n)
    ensures Refusal(Furnished(n), Increase(n), Observed(true, 0)).None?
  {
    hide Wrap, Fits;
    Wraps();
    FitsOne(n);
    assert Used(Furnished(n), n.pool) == NOTHING;
  }

  // Raising a target by one adds one intent.
  lemma CommitUp(db: Db, req: CapacityRequest, g: Group, pick: Pick)
    requires req.group in db.groups && pick.cancel <= db.ops.Keys && Delta(g, req) == 1
    ensures Commit(db, req, g, pick) == AddIntent(Retarget(db, req, g), req.group, g, Wrap(g.revision + 1))
  {
    hide Wrap, AddIntent, Retarget;
    var d := Retarget(db, req, g);
    assert AddIntents(d, req.group, g, Wrap(g.revision + 1), 0) == d;
  }

  lemma AdmitOne(n: Names)
    requires Given(n)
    ensures Apply(START.(db := Furnished(n)), GrowByOne(n)).db == Enlarged(n)
    ensures Apply(START.(db := Furnished(n)), GrowByOne(n)).workers == map[]
  {
    hide Wrap, Refusal, Commit, AddIntent, Retarget;
    Wraps();
    NotRefused(n);
    CommitUp(Furnished(n), Increase(n), Policy(n), Pick({}, {}));
  }

  // ---------- An executor that succeeds ----------

  // A string of n + 1 marks.
  function Tally(n: nat): string { seq(n + 1, _ => 'x') }

  function IdentityOf(o: Id): NodeIdentity { NodeIdentity(o, Tally(o), Tally(0), seq(64, _ => 'a')) }

  const EXECUTOR: Executor := Executor((o: Id) => Tally(0), (o: Id) => "", IdentityOf, (o: Id) => Expected(1, Tally(0), ""))

  lemma Answers(o: Id)
    ensures AnswersFor(EXECUTOR, o)
  {
  }

  lemma Tallies(a: Id, b: Id)
    ensures a != b ==> Tally(a) != Tally(b)
  {
    assert |Tally(a)| == a + 1 && |Tally(b)| == b + 1;
  }

  lemma Obliges(n: Names)
    ensures Obliging(Enlarged(n), EXECUTOR)
  {
    hide AnswersFor;
    forall o: Id ensures AnswersFor(EXECUTOR, o) { Answers(o); }
    forall a: Id, b: Id | a != b ensures EXECUTOR.identity(a).uid != EXECUTOR.identity(b).uid { Tallies(a, b); }
  }

  const LEASE := 120_000

  lemma Rests(w: World, n: Names)
    requires w.db == Enlarged(n) && w.workers == map[]
    ensures Resting(w, n.zone, n.owner, LEASE, EXECUTOR)
    ensures 0 in Unfinished(w.db, n.zone)
  {
    hide Obliging;
    Obliges(n);
    forall o | o in Unfinished(w.db, n.zone) ensures Serviceable(w.db, o, n.owner) {
      assert o == 0;
    }
  }

  // Some run makes some host READY.
  lemma SomeHostBecomesReady(n: Names) returns (es: seq<Event>)
    requires Given(n)
    ensures 0 in Run(START, es).db.hosts && Run(START, es).db.hosts[0].state.Ready?
  {
    hide Apply, Resting, Unfinished, Furnished, Enlarged;
    AdmitOne(n);
    var c := FurnishedRun(n);
    var d := Then(START, c, START.(db := Furnished(n)), GrowByOne(n), Apply(START.(db := Furnished(n)), GrowByOne(n)));
    Rests(Run(START, d), n);
    hide Run;
    var more := EveryRunCanFinish(d, n.zone, 0, n.owner, LEASE, EXECUTOR);
    es := d + more;
  }
}
