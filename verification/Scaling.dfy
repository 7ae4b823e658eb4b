// The autoscaler adapter's scaling intents (internal/adapter/autoscaler/server.go) against the
// store: an intent is one immutable request delivered any number of times, in any order, among
// any other events. It takes effect at most once, every success reply is the same, and a
// conflict is final.

module Scaling {
  import opened Options
  import opened Int64
  import opened Capacity
  import opened Admission
  import opened Coupling
  import opened AdmissionSound
  import opened Progress
  import opened Protocol
  import opened Safety
  import opened Guarantees

  // The reply to a delivery; which rows a decrease picks does not matter to it.
  function ReplyTo(db: Db, req: CapacityRequest, obs: Observed): Reply {
    if Refusal(db, req, obs).Some? then Refusal(db, req, obs).value
    else Accepted(req.request, req.group, req.desired, Wrap(db.groups[req.group].revision + 1))
  }

  lemma ReplyIsSetTargets(db: Db, req: CapacityRequest, obs: Observed, pick: Pick)
    requires req.group in db.groups ==> PickFits(db, req, pick)
    ensures ReplyTo(db, req, obs) == SetTarget(db, req, obs, pick).1
  {
    hide Refusal, Commit;
  }

  // ---------- Stored requests ----------

  predicate IsStored(db: Db, req: CapacityRequest) {
    KeyOf(req) in db.requests && db.requests[KeyOf(req)].req == req
  }

  // Every stored request was admitted at the revision it expected.
  predicate StoredOk(db: Db) {
    forall k :: k in db.requests ==> db.requests[k].result == db.requests[k].req.expected + 1 && KeyOf(db.requests[k].req) == k
  }

  // How many deliveries of req changed state.
  function Commits(es: seq<Event>, req: CapacityRequest): nat {
    if es == [] then 0
    else
      var e := es[|es| - 1];
      Commits(es[..|es| - 1], req) +
      if e.Admit? && e.req == req && Admits(Run(START, es[..|es| - 1]).db, e.req, e.obs, e.pick) then 1 else 0
  }

  lemma AdmitStores(w: World, req: CapacityRequest, obs: Observed, pick: Pick)
    requires Sound(w.db) && Admits(w.db, req, obs, pick)
    ensures KeyOf(req) !in w.db.requests
    ensures ApplyAdmit(w, req, obs, pick).db.requests == w.db.requests[KeyOf(req) := StoredRequest(req, req.expected + 1)]
  {
    hide Sound, Used, Late, AddIntents, CancelWith, PickOk;
    NoOverflow(w.db, req, obs.enabled);
    var g := w.db.groups[req.group];
    var d := Retarget(w.db, req, g);
    if Delta(g, req) > 0 { IntentsFrame(d, req.group, g, Wrap(g.revision + 1), Delta(g, req)); }
    PickFrame(d, pick);
  }

  lemma BatchRequests(w: World, cluster: string, req: RemovalRequest)
    ensures ApplyRemoveMany(w, cluster, req).db.requests == w.db.requests
  {
    hide NodesError, WellFormedNodes, IsReplay, AddRemovals;
    if ApplyRemoveMany(w, cluster, req) != w {
      var g := w.db.groups[req.group];
      var revision := Wrap(g.revision + 1);
      RemovalsFrame(Lower(w.db, req.group, |req.nodes|, revision), g, req, revision, |req.nodes|);
    }
  }

  lemma NamedRequests(w: World, cluster: string, expected: int, r: NamedRemoval)
    ensures ApplyRemoveNamed(w, cluster, expected, r).db.requests == w.db.requests
  {
    hide UnderRemoval;
  }

  lemma WriteRecords(db: Db, t: Token, w: Write)
    ensures Perform(db, t, w).requests == db.requests && Perform(db, t, w).removals == db.removals
  {
    hide RowPermits, Effect;
  }

  lemma WriteEvents(w: World, e: Event)
    requires e.Issue? || e.Extend? || e.Take?
    ensures Apply(w, e).db.requests == w.db.requests && Apply(w, e).db.removals == w.db.removals
  {
    hide Perform, Permits, Locked, LockedByOther, MemberReady, DominatorOf, Free;
    match e {
      case Issue(k) => if k in w.workers && WriteAt(w.workers[k]).Some? { WriteRecords(w.db, w.workers[k].t, WriteAt(w.workers[k]).value); }
      case Extend(k, d) => if k in w.workers { WriteRecords(w.db, w.workers[k].t, Renew(d)); }
      case Take(_, _, _, _) =>
    }
  }

  lemma CatalogRecords(w: World, e: Event)
    requires e.Tick? || e.Topology? || e.NewPool? || e.NewGroup? || e.NewTemplate?
    ensures Apply(w, e).db.requests == w.db.requests && Apply(w, e).db.removals == w.db.removals
  {
    hide TopologyFree;
  }

  lemma ControllerRecords(w: World, e: Event)
    requires !e.Admit? && !e.RemoveMany? && !e.RemoveNamed?
    ensures Apply(w, e).db.requests == w.db.requests && Apply(w, e).db.removals == w.db.removals
  {
    hide Apply;
    match e {
      case Issue(_) => WriteEvents(w, e);
      case Extend(_, _) => WriteEvents(w, e);
      case Take(_, _, _, _) => WriteEvents(w, e);
      case Tick(_) => CatalogRecords(w, e);
      case Topology(_, _, _, _) => CatalogRecords(w, e);
      case NewPool(_, _) => CatalogRecords(w, e);
      case NewGroup(_, _) => CatalogRecords(w, e);
      case NewTemplate(_, _, _) => CatalogRecords(w, e);
      case _ => MovesKeepTables(w, e);
    }
  }

  // Only an admitted request changes the table of requests.
  lemma RequestsStep(w: World, e: Event)
    requires Sound(w.db)
    ensures e.Admit? && Admits(w.db, e.req, e.obs, e.pick) ==>
      KeyOf(e.req) !in w.db.requests &&
      Apply(w, e).db.requests == w.db.requests[KeyOf(e.req) := StoredRequest(e.req, e.req.expected + 1)]
    ensures !(e.Admit? && Admits(w.db, e.req, e.obs, e.pick)) ==> Apply(w, e).db.requests == w.db.requests
  {
    hide Sound, Admits;
    match e {
      case Admit(req, obs, pick) => if Admits(w.db, req, obs, pick) { AdmitStores(w, req, obs, pick); }
      case RemoveMany(cluster, req) => BatchRequests(w, cluster, req);
      case RemoveNamed(cluster, expected, r) => NamedRequests(w, cluster, expected, r);
      case _ => ControllerRecords(w, e);
    }
  }

  // In every run a request has committed once if it is stored, and not at all otherwise.
  lemma {:induction false} CommitsExactly(es: seq<Event>, req: CapacityRequest)
    ensures Commits(es, req) == if IsStored(Run(START, es).db, req) then 1 else 0
    ensures StoredOk(Run(START, es).db)
  {
    hide Safe, Sound, Apply, Admits;
    if es != [] {
      var before := es[..|es| - 1];
      CommitsExactly(before, req);
      Reachable(before);
      SafeSound(Run(START, before));
      RequestsStep(Run(START, before), es[|es| - 1]);
    }
  }

  // How to read a reply: an acceptance before commit is a replay, a conflict is a stale revision.
  lemma Replies(db: Db, req: CapacityRequest, obs: Observed)
    ensures var r := Refusal(db, req, obs);
      (r.Some? && r.value.Accepted? ==>
        IsStored(db, req) && r.value == Accepted(req.request, req.group, req.desired, db.requests[KeyOf(req)].result)) &&
      (r == Some(Rejected(Conflict)) ==> req.group in db.groups && db.groups[req.group].revision != req.expected && KeyOf(req) !in db.requests) &&
      (r.None? ==>
        req.group in db.groups && db.groups[req.group].revision == req.expected && KeyOf(req) !in db.requests && Early(db, req, obs.enabled).None?)
  {
    hide Fits, Used;
  }

  // ---------- Main results ----------

  // At most one delivery changes state.
  lemma AtMostOnce(es: seq<Event>, req: CapacityRequest)
    ensures Commits(es, req) <= 1
  {
    CommitsExactly(es, req);
  }

  // Every success reply is the same, and by the time it is sent the intent has committed once.
  lemma SuccessRepliesAgree(es: seq<Event>, req: CapacityRequest, obs: Observed, pick: Pick)
    requires TypedRequest(req) && PickFits(Run(START, es).db, req, pick)
    requires SetTarget(Run(START, es).db, req, obs, pick).1.Accepted?
    ensures SetTarget(Run(START, es).db, req, obs, pick).1 == Accepted(req.request, req.group, req.desired, req.expected + 1)
    ensures Commits(es + [Admit(req, obs, pick)], req) == 1
  {
    hide Run, Safe, Sound, PickOk, Refusal, Early, SetTarget;
    var db := Run(START, es).db;
    ReplyIsSetTargets(db, req, obs, pick);
    Replies(db, req, obs);
    var all := es + [Admit(req, obs, pick)];
    assert all[..|all| - 1] == es;
    CommitsExactly(es, req);
    Reachable(es);
    SafeSound(Run(START, es));
    if Refusal(db, req, obs).None? {
      NoOverflow(db, req, obs.enabled);
      assert Admits(db, req, obs, pick);
    }
  }

  // A conflict reply to an intent whose expected revision was read from Target is final: no
  // delivery of it, in any later state, commits.
  lemma ConflictIsFinal(es: seq<Event>, since: seq<Event>, more: seq<Event>, req: CapacityRequest,
                        obs: Observed, later: Observed, pick: Pick)
    requires req.group in Run(START, es).db.groups && req.expected == Run(START, es).db.groups[req.group].revision
    requires ReplyTo(Run(START, es + since).db, req, obs) == Rejected(Conflict)
    ensures !Admits(Run(START, es + since + more).db, req, later, pick)
    ensures !ReplyTo(Run(START, es + since + more).db, req, later).Accepted?
  {
    hide Run, Safe, RowsAdvance, PickFits, Refusal;
    Replies(Run(START, es + since).db, req, obs);
    Replies(Run(START, es + since + more).db, req, later);
    Later(es, since);
    Later(es + since, more);
    CommitsExactly(es + since, req);
    CommitsExactly(es + since + more, req);
    StaysUncommitted(es + since, more, req);
  }

  predicate Overtaken(db: Db, req: CapacityRequest) {
    req.group in db.groups && req.expected < db.groups[req.group].revision && !IsStored(db, req)
  }

  lemma OvertakenStep(w: World, e: Event, req: CapacityRequest)
    requires Sound(w.db) && Overtaken(w.db, req) && Progresses(w.db, Apply(w, e).db)
    ensures Overtaken(Apply(w, e).db, req)
  {
    hide Sound, Apply, RowsAdvance, Recorded, PickFits, Refusal;
    RequestsStep(w, e);
    if e.Admit? { Replies(w.db, e.req, e.obs); }
    assert GroupAdvances(w.db.groups[req.group], Apply(w, e).db.groups[req.group]);
  }

  // A request overtaken by a higher revision and not stored is never stored.
  lemma {:induction false} StaysUncommitted(es: seq<Event>, more: seq<Event>, req: CapacityRequest)
    requires Overtaken(Run(START, es).db, req)
    ensures Overtaken(Run(START, es + more).db, req)
  {
    hide Safe, Sound, Apply, Progresses, Overtaken;
    if more == [] {
      assert es + more == es;
    } else {
      var before := more[..|more| - 1];
      StaysUncommitted(es, before, req);
      assert (es + more)[..|es + more| - 1] == es + before;
      var w := Run(START, es + before);
      Reachable(es + before);
      SafeSound(w);
      StepSafe(w, more[|more| - 1]);
      OvertakenStep(w, more[|more| - 1], req);
    }
  }

  // ---------- Removal batches ----------

  // Two removals of one group under one request identifier come from the same batch.
  predicate BatchesAgree(removals: map<Id, Removal>) {
    forall i, j :: i in removals && j in removals && SameRequest(removals[i], removals[j]) ==> removals[i].batch == removals[j].batch
  }

  predicate SameRequest(a: Removal, b: Removal) {
    a.batch.Some? && b.batch.Some? && a.group == b.group && a.batch.value.request == b.batch.value.request
  }

  // A batch adds its own removals and nothing else.
  lemma {:induction false} BatchAdds(db: Db, g: Group, req: RemovalRequest, revision: int, count: nat)
    requires count <= |req.nodes| && forall i :: i in db.removals ==> i < db.next
    ensures var d := AddRemovals(db, g, req, revision, count);
      db.next <= d.next && (forall i :: i in d.removals ==> i < d.next) &&
      (forall i :: i in db.removals ==> i in d.removals && d.removals[i] == db.removals[i]) &&
      (forall i :: i in d.removals && i !in db.removals ==> d.removals[i].group == req.group && d.removals[i].batch == Some(req)) &&
      (count > 0 ==> db.next in d.removals && d.removals[db.next].group == req.group && d.removals[db.next].batch == Some(req))
  {
    if count > 0 { BatchAdds(db, g, req, revision, count - 1); }
  }

  lemma RemovalsBelow(db: Db)
    requires Sound(db)
    ensures forall i :: i in db.removals ==> i < db.next
  {
    hide Coupled, Typed, NodesDistinct, PoolBound;
    forall i | i in db.removals ensures i < db.next { assert LinkedRemoval(db, i) && LinkedOp(db, i); }
  }

  lemma BatchStep(w: World, cluster: string, req: RemovalRequest)
    requires Sound(w.db) && BatchesAgree(w.db.removals)
    ensures BatchesAgree(ApplyRemoveMany(w, cluster, req).db.removals)
    ensures ApplyRemoveMany(w, cluster, req) != w ==>
      exists i :: i in ApplyRemoveMany(w, cluster, req).db.removals && IsReplay(ApplyRemoveMany(w, cluster, req).db, req, i) &&
        ApplyRemoveMany(w, cluster, req).db.removals[i].batch == Some(req)
  {
    hide Sound, NodesError, WellFormedNodes, AddRemovals;
    var w' := ApplyRemoveMany(w, cluster, req);
    if w' != w {
      var g := w.db.groups[req.group];
      var revision := Wrap(g.revision + 1);
      var lowered := Lower(w.db, req.group, |req.nodes|, revision);
      RemovalsBelow(w.db);
      BatchAdds(lowered, g, req, revision, |req.nodes|);
      assert forall i :: i in w.db.removals ==> !IsReplay(w.db, req, i);
      assert IsReplay(w'.db, req, lowered.next);
    }
  }

  lemma RemovalsStay(w: World, e: Event)
    requires Sound(w.db) && !e.RemoveMany?
    ensures forall i :: i in Apply(w, e).db.removals ==>
      (i in w.db.removals && Apply(w, e).db.removals[i] == w.db.removals[i]) || Apply(w, e).db.removals[i].batch.None?
  {
    hide Sound, Admits;
    match e {
      case Admit(req, obs, pick) => if Admits(w.db, req, obs, pick) { AdmitRemovals(w, req, obs, pick); }
      case RemoveNamed(cluster, expected, r) => NamedRemovals(w, cluster, expected, r);
      case _ => ControllerRecords(w, e);
    }
  }

  lemma AdmitRemovals(w: World, req: CapacityRequest, obs: Observed, pick: Pick)
    requires Admits(w.db, req, obs, pick)
    ensures ApplyAdmit(w, req, obs, pick).db.removals == w.db.removals
  {
    hide Refusal, AddIntents, CancelWith, PickOk;
    var g := w.db.groups[req.group];
    var d := Retarget(w.db, req, g);
    if Delta(g, req) > 0 { IntentsFrame(d, req.group, g, Wrap(g.revision + 1), Delta(g, req)); }
    PickFrame(d, pick);
  }

  lemma NamedRemovals(w: World, cluster: string, expected: int, r: NamedRemoval)
    ensures var d := ApplyRemoveNamed(w, cluster, expected, r).db;
      forall i :: i in d.removals ==> (i in w.db.removals && d.removals[i] == w.db.removals[i]) || d.removals[i].batch.None?
  {
    hide UnderRemoval;
  }

  lemma AgreeFewer(a: map<Id, Removal>, b: map<Id, Removal>)
    requires BatchesAgree(a) && forall i :: i in b ==> (i in a && b[i] == a[i]) || b[i].batch.None?
    ensures BatchesAgree(b)
  {
  }

  lemma {:induction false} BatchesAlwaysAgree(es: seq<Event>)
    ensures BatchesAgree(Run(START, es).db.removals)
  {
    hide Safe, Sound, Apply, BatchesAgree;
    if es == [] {
      NoBatches();
    } else {
      var before, e := es[..|es| - 1], es[|es| - 1];
      var w := Run(START, before);
      BatchesAlwaysAgree(before);
      Reachable(before);
      SafeSound(w);
      if e.RemoveMany? {
        BatchStep(w, e.principal, e.batch);
        ManyIs(w, e);
      } else {
        RemovalsStay(w, e);
        AgreeFewer(w.db.removals, Apply(w, e).db.removals);
      }
    }
  }

  lemma NoBatches()
    ensures BatchesAgree(START.db.removals)
  {
  }

  lemma ManyIs(w: World, e: Event)
    requires e.RemoveMany?
    ensures Apply(w, e) == ApplyRemoveMany(w, e.principal, e.batch)
  {
    hide ApplyRemoveMany;
  }

  // Once a batch has committed, every later delivery of it succeeds and changes nothing, and
  // another batch under the same identifier is refused.
  lemma BatchesReplay(es: seq<Event>, more: seq<Event>, cluster: string, req: RemovalRequest, again: RemovalRequest)
    requires |req.nodes| <= MAX && RemoveBatch(Run(START, es).db, cluster, req).0 != Run(START, es).db
    requires again.group == req.group && again.request == req.request
    ensures var db := Run(START, es + [RemoveMany(cluster, req)] + more).db;
      RemoveBatch(db, cluster, again).0 == db &&
      (again == req ==> RemoveBatch(db, cluster, again).1.None?) &&
      (again != req ==> RemoveBatch(db, cluster, again).1.Some?)
  {
    hide Run, Safe, Sound, Apply, BatchesAgree, RemoveBatch, RowsAdvance;
    var now := es + [RemoveMany(cluster, req)];
    var w := Run(START, es);
    Reachable(es);
    SafeSound(w);
    BatchesAlwaysAgree(es);
    BatchesAlwaysAgree(now + more);
    BatchStep(w, cluster, req);
    RunNext(es, RemoveMany(cluster, req));
    ManyIs(w, RemoveMany(cluster, req));
    Later(now, more);
    assert es + ([RemoveMany(cluster, req)] + more) == now + more;
    Later(es, [RemoveMany(cluster, req)] + more);
    var db := Run(START, now + more).db;
    var i :| i in Run(START, now).db.removals && IsReplay(Run(START, now).db, req, i) && Run(START, now).db.removals[i].batch == Some(req);
    BatchShape(w.db, cluster, req);
    ReplayAnswer(db, cluster, req, again, i);
  }

  lemma RunNext(es: seq<Event>, e: Event)
    ensures Run(START, es + [e]) == Apply(Run(START, es), e)
  {
    hide Apply;
    assert (es + [e])[..|es + [e]| - 1] == es;
  }

  lemma BatchShape(db: Db, cluster: string, req: RemovalRequest)
    requires RemoveBatch(db, cluster, req).0 != db
    ensures cluster != "" && req.group != "" && req.request != "" && req.expected >= 0 && req.nodes != [] && WellFormedNodes(req.nodes)
    ensures req.group in db.groups && db.groups[req.group].cluster == cluster
  {
    hide WellFormedNodes, NodesError, IsReplay;
  }

  lemma ReplayAnswer(db: Db, cluster: string, req: RemovalRequest, again: RemovalRequest, i: Id)
    requires BatchesAgree(db.removals) && i in db.removals && IsReplay(db, req, i) && db.removals[i].batch == Some(req)
    requires again.group == req.group && again.request == req.request
    requires cluster != "" && req.group != "" && req.request != "" && req.expected >= 0 && req.nodes != [] && WellFormedNodes(req.nodes)
    requires req.group in db.groups && db.groups[req.group].cluster == cluster
    ensures RemoveBatch(db, cluster, again).0 == db
    ensures again == req ==> RemoveBatch(db, cluster, again).1.None?
    ensures again != req ==> RemoveBatch(db, cluster, again).1.Some?
  {
    hide WellFormedNodes, NodesError;
    assert IsReplay(db, again, i);
  }

  // ---------- Exclusive ownership of removed hosts ----------

  predicate Exclusive(removals: map<Id, Removal>) {
    forall i, j :: i in removals && j in removals && i != j ==> removals[i].host != removals[j].host
  }

  // A removal names a host of its own group that has been launched.
  predicate OwnsHost(hosts: map<Id, Capacity.Host>, r: Removal) {
    r.host in hosts && hosts[r.host].group == r.group && hosts[r.host].provider != ""
  }

  predicate Owned(db: Db) {
    Exclusive(db.removals) && forall i :: i in db.removals ==> OwnsHost(db.hosts, db.removals[i])
  }

  // The i-th removal of a batch is for its i-th node.
  lemma {:induction false} BatchNodes(db: Db, g: Group, req: RemovalRequest, revision: int, count: nat)
    requires count <= |req.nodes|
    ensures var d := AddRemovals(db, g, req, revision, count);
      d.next == db.next + count && d.hosts == db.hosts &&
      forall i :: i in d.removals ==>
        (i in db.removals && d.removals[i] == db.removals[i]) ||
        (db.next <= i < db.next + count && d.removals[i] == Removal(req.group, req.nodes[i - db.next].host, false, revision, Some(req)))
  {
    if count > 0 { BatchNodes(db, g, req, revision, count - 1); }
  }

  lemma FreeNode(db: Db, gid: string, n: RemovalNode, i: Id)
    requires NodeError(db, gid, n).None?
    ensures i in db.removals ==> db.removals[i].host != n.host
    ensures n.host in db.hosts && db.hosts[n.host].group == gid && db.hosts[n.host].provider != ""
  {
  }

  lemma DistinctHosts(nodes: seq<RemovalNode>, i: nat, j: nat)
    requires WellFormedNodes(nodes) && i < |nodes| && j < |nodes| && i != j
    ensures nodes[i].host != nodes[j].host
  {
  }

  lemma BatchOwns(db: Db, g: Group, req: RemovalRequest, revision: int)
    requires Owned(db) && WellFormedNodes(req.nodes) && NodesError(db, req.group, req.nodes).None?
    requires forall i :: i in db.removals ==> i < db.next
    ensures Owned(AddRemovals(db, g, req, revision, |req.nodes|))
  {
    hide AddRemovals, WellFormedNodes, NodesError, NodeError;
    BatchNodes(db, g, req, revision, |req.nodes|);
    var d := AddRemovals(db, g, req, revision, |req.nodes|);
    forall k | 0 <= k < |req.nodes|
      ensures OwnsHost(db.hosts, Removal(req.group, req.nodes[k].host, false, revision, Some(req)))
      ensures forall i :: i in db.removals ==> db.removals[i].host != req.nodes[k].host
    {
      NodesChecked(db, req.group, req.nodes, k);
      forall i | i in db.removals ensures db.removals[i].host != req.nodes[k].host { FreeNode(db, req.group, req.nodes[k], i); }
      FreeNode(db, req.group, req.nodes[k], 0);
    }
    forall i, j | i in d.removals && j in d.removals && i != j ensures d.removals[i].host != d.removals[j].host {
      if i !in db.removals && j !in db.removals { DistinctHosts(req.nodes, i - db.next, j - db.next); }
    }
  }

  lemma LoweredCheck(db: Db, gid: string, count: int, revision: int, of: string, n: RemovalNode)
    requires gid in db.groups
    ensures NodeError(Lower(db, gid, count, revision), of, n) == NodeError(db, of, n)
  {
    hide IdentityIn;
    assert UnderRemoval(Lower(db, gid, count, revision), n.host) == UnderRemoval(db, n.host);
  }

  lemma {:induction false} LoweredChecks(db: Db, gid: string, count: int, revision: int, of: string, nodes: seq<RemovalNode>)
    requires gid in db.groups
    ensures NodesError(Lower(db, gid, count, revision), of, nodes) == NodesError(db, of, nodes)
  {
    hide NodeError, Lower;
    if nodes != [] {
      LoweredCheck(db, gid, count, revision, of, nodes[0]);
      LoweredChecks(db, gid, count, revision, of, nodes[1..]);
    }
  }

  lemma BatchExclusive(w: World, cluster: string, req: RemovalRequest)
    requires Sound(w.db) && Owned(w.db)
    ensures Owned(ApplyRemoveMany(w, cluster, req).db)
  {
    hide Sound, Owned, NodesError, WellFormedNodes, AddRemovals, IsReplay;
    if ApplyRemoveMany(w, cluster, req) != w {
      var g := w.db.groups[req.group];
      var revision := Wrap(g.revision + 1);
      var lowered := Lower(w.db, req.group, |req.nodes|, revision);
      RemovalsBelow(w.db);
      LoweredChecks(w.db, req.group, |req.nodes|, revision, req.group, req.nodes);
      OwnedSame(w.db, lowered);
      BatchOwns(lowered, g, req, revision);
    }
  }

  lemma OwnedSame(db: Db, d: Db)
    requires Owned(db) && d == db.(groups := d.groups)
    ensures Owned(d)
  {
  }

  lemma NamedExclusive(w: World, cluster: string, expected: int, r: NamedRemoval)
    requires Owned(w.db) && forall i :: i in w.db.removals ==> i < w.db.next
    ensures Owned(ApplyRemoveNamed(w, cluster, expected, r).db)
  {
  }

  // Hosts keep their group and their provider, so nothing else disturbs an owner.
  lemma OwnedStays(db: Db, d: Db)
    requires Owned(db) && d.removals == db.removals && Progresses(db, d) && Linked(db)
    ensures Owned(d)
  {
    hide GroupsAdvance, Recorded, Linked, HasRow;
    forall i | i in d.removals ensures OwnsHost(d.hosts, d.removals[i]) {
      HostAdvances(db, d, db.removals[i].host);
    }
  }

  lemma HostAdvances(db: Db, d: Db, h: Id)
    requires RowsAdvance(db, d) && h in db.hosts && Linked(db)
    ensures h in d.hosts && d.hosts[h].group == db.hosts[h].group && (db.hosts[h].provider != "" ==> d.hosts[h].provider == db.hosts[h].provider)
  {
    LinkedHasRow(db, h);
    assert Advances(RowOf(db, h), RowOf(d, h), db.clock);
  }

  lemma OwnedStep(w: World, e: Event)
    requires Safe(w) && Owned(w.db)
    ensures Owned(Apply(w, e).db)
  {
    hide Safe, Sound, Owned, Apply, Progresses, Linked, Admits;
    SafeSound(w);
    SoundLinked(w.db);
    StepSafe(w, e);
    match e {
      case RemoveMany(cluster, req) => BatchExclusive(w, cluster, req); ManyIs(w, e);
      case RemoveNamed(cluster, expected, r) => RemovalsBelow(w.db); NamedExclusive(w, cluster, expected, r); NamedIs(w, e);
      case Admit(req, obs, pick) => AdmitKeepsRemovals(w, e); OwnedStays(w.db, Apply(w, e).db);
      case _ => ControllerRecords(w, e); OwnedStays(w.db, Apply(w, e).db);
    }
  }

  lemma NamedIs(w: World, e: Event)
    requires e.RemoveNamed?
    ensures Apply(w, e) == ApplyRemoveNamed(w, e.caller, e.expected, e.named)
  {
    hide ApplyRemoveNamed;
  }

  lemma AdmitKeepsRemovals(w: World, e: Event)
    requires e.Admit?
    ensures Apply(w, e).db.removals == w.db.removals
  {
    hide Admits, SetTarget;
    if Admits(w.db, e.req, e.obs, e.pick) { AdmitRemovals(w, e.req, e.obs, e.pick); }
  }

  // In every run each host is under at most one removal, of its own group, and only after it was
  // launched.
  lemma {:induction false} RemovalsAreExclusive(es: seq<Event>)
    ensures Owned(Run(START, es).db)
  {
    hide Safe, Apply;
    if es != [] {
      hide Owned;
      RemovalsAreExclusive(es[..|es| - 1]);
      Reachable(es[..|es| - 1]);
      OwnedStep(Run(START, es[..|es| - 1]), es[|es| - 1]);
    }
  }

  // ---------- The adapter's delivery loop ----------

  datatype Code = Ok | Unavailable | Refused(error: Error) | Ended

  // replies(i) is the outcome of the i-th delivery, Unavailable when the reply was lost or could
  // not be verified; ended(n) is whether the caller's context is over at the n-th look.
  method Retry(replies: nat -> Code, ended: nat -> bool) returns (code: Code, deliveries: nat, waits: seq<nat>)
    ensures deliveries <= 3
    ensures forall i: nat :: i + 1 < deliveries ==> replies(i).Unavailable?
    ensures code.Ended? || (deliveries > 0 && code == replies(deliveries - 1))
    ensures code.Unavailable? ==> deliveries == 3
    ensures code.Ended? && (deliveries == 0 || !replies(deliveries - 1).Ended?) ==> exists n: nat :: n < 6 && ended(n)
    // Milliseconds waited: the pauses double, with one between any two deliveries, and none after the
    // last unless the context ends after it.
    ensures |waits| <= 2 && waits == [50, 100][..|waits|]
    ensures deliveries - 1 <= |waits| <= deliveries && (|waits| == deliveries > 0 ==> code.Ended?)
  {
    deliveries, waits := 0, [];
    var pause := 50;
    while true
      invariant deliveries <= 2 && |waits| == deliveries && pause == (if deliveries == 0 then 50 else 100 * deliveries)
      invariant waits == [50, 100][..|waits|]
      invariant forall i: nat :: i < deliveries ==> replies(i).Unavailable?
      decreases 3 - deliveries
    {
      if ended(2 * deliveries) { return Ended, deliveries, waits; }
      var reply := replies(deliveries);
      deliveries := deliveries + 1;
      if !reply.Unavailable? || deliveries == 3 { return reply, deliveries, waits; }
      if ended(2 * deliveries - 1) { return Ended, deliveries, waits; }
      waits := waits + [pause];
      pause := 2 * pause;
    }
  }
}
