// What the two removal transactions promise (internal/capacity/removals.go,
// internal/capacity/catalog.go), read off the columns: exactly when they commit, with which error
// they refuse, and what a commit writes.

module Removals {
  import opened Options
  import opened Int64
  import opened Capacity
  import opened Admission
  import opened Coupling
  import opened AdmissionSound

  // ---------- CreateAutoscalerRemovals ----------

  // How Kubernetes names the host of a group: by zone and instance on AWS.
  ghost predicate Names(db: Db, gid: string, n: RemovalNode) {
    n.host in db.hosts && gid in db.groups && db.groups[gid].zone in db.zones &&
    var h, z := db.hosts[n.host], db.zones[db.groups[gid].zone];
    h.group == gid && h.provider != "" &&
    n.provider == (if z.provider == "aws" then "aws:///" + z.cell + "/" + h.provider else h.provider)
  }

  ghost predicate Ended(s: HostState) { s in {Terminated, Terminating, HostState.Failed} }

  ghost predicate Owned(db: Db, h: Id) { exists i :: i in db.removals && db.removals[i].host == h }

  ghost predicate Delivered(db: Db, req: RemovalRequest) {
    exists i :: i in db.removals && SameRequest(db.removals[i], req)
  }

  ghost predicate SameRequest(r: Removal, req: RemovalRequest) {
    r.group == req.group && r.batch.Some? && r.batch.value.request == req.request
  }

  ghost predicate Complete(cluster: string, req: RemovalRequest) {
    cluster != "" && req.group != "" && req.request != "" && req.expected >= 0 && |req.nodes| > 0 &&
    (forall i :: 0 <= i < |req.nodes| ==> req.nodes[i].provider != "" && req.nodes[i].name != "") &&
    (forall i, j :: 0 <= i < j < |req.nodes| ==> req.nodes[i].host != req.nodes[j].host)
  }

  ghost predicate Removable(db: Db, cluster: string, req: RemovalRequest) {
    Complete(cluster, req) && req.group in db.groups && !Delivered(db, req) &&
    var g := db.groups[req.group];
    g.cluster == cluster && g.revision == req.expected < MAX && g.target - |req.nodes| >= g.min &&
    forall i :: 0 <= i < |req.nodes| ==> NodeFree(db, req, i)
  }

  ghost predicate NodeFree(db: Db, req: RemovalRequest, i: nat)
    requires i < |req.nodes|
  {
    var n := req.nodes[i];
    Names(db, req.group, n) && !Ended(db.hosts[n.host].state) && !Owned(db, n.host)
  }

  lemma OwnedIsUnderRemoval(db: Db, h: Id)
    ensures Owned(db, h) <==> UnderRemoval(db, h)
  {
  }

  lemma DeliveredIsReplay(db: Db, req: RemovalRequest)
    ensures Delivered(db, req) <==> exists i :: i in db.removals && IsReplay(db, req, i)
  {
    if Delivered(db, req) {
      var i :| i in db.removals && SameRequest(db.removals[i], req);
      assert IsReplay(db, req, i);
    }
    if i :| i in db.removals && IsReplay(db, req, i) { assert SameRequest(db.removals[i], req); }
  }

  lemma FreeExactly(db: Db, req: RemovalRequest, i: nat)
    requires i < |req.nodes|
    ensures NodeError(db, req.group, req.nodes[i]).None? <==> NodeFree(db, req, i)
  {
    OwnedIsUnderRemoval(db, req.nodes[i].host);
    hide Owned, UnderRemoval;
  }

  // The first node that fails, if any.
  lemma {:induction false} FirstFailure(db: Db, gid: string, nodes: seq<RemovalNode>) returns (i: nat)
    ensures i <= |nodes| && forall j :: 0 <= j < i ==> NodeError(db, gid, nodes[j]).None?
    ensures if i < |nodes| then NodeError(db, gid, nodes[i]).Some? && NodesError(db, gid, nodes) == NodeError(db, gid, nodes[i])
            else NodesError(db, gid, nodes).None?
  {
    hide NodeError;
    if nodes == [] || NodeError(db, gid, nodes[0]).Some? {
      i := 0;
    } else {
      var k := FirstFailure(db, gid, nodes[1..]);
      i := k + 1;
      forall j | 0 <= j < i ensures NodeError(db, gid, nodes[j]).None? {
        if j > 0 { assert nodes[j] == nodes[1..][j - 1]; }
      }
    }
  }

  // A batch commits exactly when the request is complete and new, the cluster owns the group, the
  // revision is the expected one, the target can be lowered and every named host is free.
  lemma BatchCommitsExactly(db: Db, cluster: string, req: RemovalRequest)
    requires Sound(db) && |req.nodes| <= MAX
    ensures RemoveBatch(db, cluster, req).0 != db <==> Removable(db, cluster, req)
    ensures Removable(db, cluster, req) ==> RemoveBatch(db, cluster, req).1.None?
  {
    hide Sound, NodeError, NodesError, Delivered, IsReplay, AddRemovals, NodeFree;
    DeliveredIsReplay(db, req);
    if req.group in db.groups { GroupTyped(db, req.group); }
    var k := FirstFailure(db, req.group, req.nodes);
    forall i | 0 <= i < |req.nodes| ensures NodeError(db, req.group, req.nodes[i]).None? <==> NodeFree(db, req, i) {
      FreeExactly(db, req, i);
    }
    if RemoveBatch(db, cluster, req).0 == db && Removable(db, cluster, req) {
      assert NodesError(db, req.group, req.nodes).None?;
      BatchLowers(db, req);
    }
  }

  lemma BatchLowers(db: Db, req: RemovalRequest)
    requires req.group in db.groups && |req.nodes| > 0
    ensures var g := db.groups[req.group];
      AddRemovals(Lower(db, req.group, |req.nodes|, Wrap(g.revision + 1)), g, req, Wrap(g.revision + 1), |req.nodes|) != db
  {
    var g := db.groups[req.group];
    RemovalsFrame(Lower(db, req.group, |req.nodes|, Wrap(g.revision + 1)), g, req, Wrap(g.revision + 1), |req.nodes|);
  }

  // ---------- Its refusals ----------

  // What can be wrong with a batch, in the order in which the transaction looks.
  datatype Cause =
    | Incomplete
    | NoGroup
    | OtherCluster
    | OtherBatch
    | Stale
    | TooLow
    | NoHost(node: nat)
    | Misnamed(node: nat)
    | Gone(node: nat)
    | Taken(node: nat)

  function Code(c: Cause): Error {
    match c
    case Incomplete => Invalid
    case NoGroup => NotFound
    case OtherCluster => Forbidden
    case OtherBatch => ReplayMismatch
    case Stale => Conflict
    case TooLow => Limit
    case NoHost(_) => NotFound
    case Misnamed(_) => Forbidden
    case Gone(_) => Fulfilled
    case Taken(_) => Conflict
  }

  // Nodes are looked at one after the other.
  function Turn(c: Cause): nat {
    match c
    case Incomplete => 0
    case NoGroup => 1
    case OtherCluster => 2
    case OtherBatch => 3
    case Stale => 4
    case TooLow => 5
    case NoHost(i) => 6 + 4 * i
    case Misnamed(i) => 7 + 4 * i
    case Gone(i) => 8 + 4 * i
    case Taken(i) => 9 + 4 * i
  }

  ghost predicate Warranted(db: Db, cluster: string, req: RemovalRequest, c: Cause) {
    match c
    case Incomplete => !Complete(cluster, req)
    case NoGroup => req.group !in db.groups
    case OtherCluster => req.group in db.groups && db.groups[req.group].cluster != cluster
    case OtherBatch => exists i :: i in db.removals && SameRequest(db.removals[i], req) && db.removals[i].batch != Some(req)
    case Stale => req.group in db.groups && db.groups[req.group].revision != req.expected
    case TooLow =>
      req.group in db.groups &&
      (db.groups[req.group].target - |req.nodes| < db.groups[req.group].min || db.groups[req.group].revision == MAX)
    case NoHost(i) => i < |req.nodes| && !Joins(db, req.nodes[i].host)
    case Misnamed(i) => i < |req.nodes| && Joins(db, req.nodes[i].host) && !Names(db, req.group, req.nodes[i])
    case Gone(i) => i < |req.nodes| && Joins(db, req.nodes[i].host) && Ended(db.hosts[req.nodes[i].host].state)
    case Taken(i) => i < |req.nodes| && Owned(db, req.nodes[i].host)
  }

  // The host row has a zone row to join.
  ghost predicate Joins(db: Db, h: Id) {
    h in db.hosts && db.hosts[h].group in db.groups && db.groups[db.hosts[h].group].zone in db.zones
  }

  // The first thing wrong; a request identifier seen before is settled before the revision is looked at.
  ghost predicate FirstCause(db: Db, cluster: string, req: RemovalRequest, c: Cause) {
    Warranted(db, cluster, req, c) && (Turn(c) > 3 ==> !Delivered(db, req)) &&
    forall d: Cause :: Turn(d) < Turn(c) ==> !Warranted(db, cluster, req, d)
  }

  lemma OneFirstCause(db: Db, cluster: string, req: RemovalRequest, c: Cause, d: Cause)
    requires FirstCause(db, cluster, req, c) && FirstCause(db, cluster, req, d)
    ensures c == d
  {
    hide Warranted, Delivered;
    assert Turn(c) == Turn(d);
    hide FirstCause;
    TurnsDiffer(c, d);
  }

  lemma TurnsDiffer(c: Cause, d: Cause)
    requires Turn(c) == Turn(d)
    ensures c == d
  {
  }

  function NodeCause(e: Error, i: nat): Cause {
    match e
    case NotFound => NoHost(i)
    case Forbidden => Misnamed(i)
    case Fulfilled => Gone(i)
    case _ => Taken(i)
  }

  // One node: its error is the first of its four causes.
  lemma NodeCaused(db: Db, cluster: string, req: RemovalRequest, i: nat)
    requires i < |req.nodes|
    ensures var e := NodeError(db, req.group, req.nodes[i]);
      e.Some? ==>
        Code(NodeCause(e.value, i)) == e.value && Warranted(db, cluster, req, NodeCause(e.value, i)) &&
        forall d: Cause :: OfNode(d, i) && Turn(d) < Turn(NodeCause(e.value, i)) ==> !Warranted(db, cluster, req, d)
    ensures NodeError(db, req.group, req.nodes[i]).None? ==> forall d: Cause :: OfNode(d, i) ==> !Warranted(db, cluster, req, d)
  {
    OwnedIsUnderRemoval(db, req.nodes[i].host);
    hide Owned, UnderRemoval;
  }

  predicate OfNode(c: Cause, i: nat) {
    (c.NoHost? || c.Misnamed? || c.Gone? || c.Taken?) && c.node == i
  }

  // The early checks in order.
  lemma EarlyCaused(db: Db, cluster: string, req: RemovalRequest, c: Cause)
    requires Sound(db) && |req.nodes| <= MAX && RemoveBatch(db, cluster, req).1.Some?
    requires c == (if !Complete(cluster, req) then Incomplete else if req.group !in db.groups then NoGroup
                   else if db.groups[req.group].cluster != cluster then OtherCluster
                   else if Delivered(db, req) then OtherBatch
                   else if db.groups[req.group].revision != req.expected then Stale else TooLow)
    requires NodesError(db, req.group, req.nodes).None? || Turn(c) < 5 || Warranted(db, cluster, req, TooLow)
    ensures FirstCause(db, cluster, req, c) && RemoveBatch(db, cluster, req).1 == Some(Code(c))
  {
    hide Sound, NodesError, NodeError, AddRemovals, IsReplay, Joins, Names, Owned, Delivered;
    DeliveredIsReplay(db, req);
    if req.group in db.groups { GroupTyped(db, req.group); }
    BatchMismatch(db, req);
  }

  lemma BatchMismatch(db: Db, req: RemovalRequest)
    ensures (exists i :: i in db.removals && IsReplay(db, req, i) && db.removals[i].batch.value != req) <==>
      (exists i :: i in db.removals && SameRequest(db.removals[i], req) && db.removals[i].batch != Some(req))
  {
    if i :| i in db.removals && IsReplay(db, req, i) && db.removals[i].batch.value != req { assert SameRequest(db.removals[i], req); }
    if i :| i in db.removals && SameRequest(db.removals[i], req) && db.removals[i].batch != Some(req) { assert IsReplay(db, req, i); }
  }

  lemma LateCaused(db: Db, cluster: string, req: RemovalRequest) returns (c: Cause)
    requires Sound(db) && |req.nodes| <= MAX && RemoveBatch(db, cluster, req).1.Some?
    requires Complete(cluster, req) && req.group in db.groups && db.groups[req.group].cluster == cluster && !Delivered(db, req)
    requires db.groups[req.group].revision == req.expected && !Warranted(db, cluster, req, TooLow) && NodesError(db, req.group, req.nodes).Some?
    ensures FirstCause(db, cluster, req, c) && RemoveBatch(db, cluster, req).1 == Some(Code(c))
  {
    hide Sound, NodesError, NodeError, AddRemovals, IsReplay, Joins, Names, Owned, Delivered;
    DeliveredIsReplay(db, req);
    GroupTyped(db, req.group);
    var i := FirstFailure(db, req.group, req.nodes);
    c := NodeCause(NodeError(db, req.group, req.nodes[i]).value, i);
    NodeCaused(db, cluster, req, i);
    forall d: Cause | Turn(d) < Turn(c) ensures !Warranted(db, cluster, req, d) {
      if d.NoHost? || d.Misnamed? || d.Gone? || d.Taken? {
        if d.node < |req.nodes| {
          assert d.node <= i;
          NodeCaused(db, cluster, req, d.node);
          assert OfNode(d, d.node);
        }
      } else if d.OtherBatch? {
        NotDelivered(db, req);
      }
    }
  }

  lemma NotDelivered(db: Db, req: RemovalRequest)
    requires !Delivered(db, req)
    ensures !exists i :: i in db.removals && SameRequest(db.removals[i], req) && db.removals[i].batch != Some(req)
  {
  }

  lemma SomeCause(db: Db, cluster: string, req: RemovalRequest) returns (c: Cause)
    requires Sound(db) && |req.nodes| <= MAX && RemoveBatch(db, cluster, req).1.Some?
    ensures FirstCause(db, cluster, req, c) && RemoveBatch(db, cluster, req).1 == Some(Code(c))
  {
    hide Sound, NodesError, RemoveBatch, FirstCause, Delivered, Complete;
    c := if !Complete(cluster, req) then Incomplete else if req.group !in db.groups then NoGroup
         else if db.groups[req.group].cluster != cluster then OtherCluster
         else if Delivered(db, req) then OtherBatch
         else if db.groups[req.group].revision != req.expected then Stale else TooLow;
    if c.TooLow? && !Warranted(db, cluster, req, TooLow) && NodesError(db, req.group, req.nodes).Some? {
      c := LateCaused(db, cluster, req);
    } else {
      EarlyCaused(db, cluster, req, c);
    }
  }

  // An error is returned, and nothing changed, exactly when it is that of the first cause.
  lemma BatchRefusedExactly(db: Db, cluster: string, req: RemovalRequest, e: Error)
    requires Sound(db) && |req.nodes| <= MAX
    ensures RemoveBatch(db, cluster, req) == (db, Some(e)) <==> exists c :: FirstCause(db, cluster, req, c) && Code(c) == e
  {
    hide Sound, RemoveBatch, FirstCause;
    RefusedKeeps(db, cluster, req);
    if RemoveBatch(db, cluster, req).1.Some? {
      var c := SomeCause(db, cluster, req);
      if d :| FirstCause(db, cluster, req, d) && Code(d) == e { OneFirstCause(db, cluster, req, c, d); }
    } else if d :| FirstCause(db, cluster, req, d) && Code(d) == e {
      NoFirstCause(db, cluster, req, d);
    }
  }

  lemma RefusedKeeps(db: Db, cluster: string, req: RemovalRequest)
    ensures RemoveBatch(db, cluster, req).1.Some? ==> RemoveBatch(db, cluster, req).0 == db
  {
    hide NodesError, AddRemovals, IsReplay, WellFormedNodes;
  }

  // A batch already delivered in full succeeds again and changes nothing.
  ghost predicate Repeated(db: Db, cluster: string, req: RemovalRequest) {
    Complete(cluster, req) && req.group in db.groups && db.groups[req.group].cluster == cluster && Delivered(db, req) &&
    forall i :: i in db.removals && SameRequest(db.removals[i], req) ==> db.removals[i].batch == Some(req)
  }

  lemma BatchRepeatsExactly(db: Db, cluster: string, req: RemovalRequest)
    requires Sound(db) && |req.nodes| <= MAX
    ensures RemoveBatch(db, cluster, req) == (db, None) <==> Repeated(db, cluster, req)
  {
    hide Sound, NodesError, Delivered, IsReplay;
    DeliveredIsReplay(db, req);
    BatchMismatch(db, req);
    if req.group in db.groups && |req.nodes| > 0 { BatchLowers(db, req); }
    hide AddRemovals;
  }

  lemma NoFirstCause(db: Db, cluster: string, req: RemovalRequest, c: Cause)
    requires Sound(db) && |req.nodes| <= MAX && RemoveBatch(db, cluster, req).1.None?
    ensures !FirstCause(db, cluster, req, c)
  {
    hide Sound, RemoveBatch, Delivered, Joins, Names, Owned, Ended, Complete, NodeFree;
    BatchCommitsExactly(db, cluster, req);
    BatchRepeatsExactly(db, cluster, req);
    if Removable(db, cluster, req) {
      RemovableIsFlawless(db, cluster, req, c);
    } else {
      assert Repeated(db, cluster, req);
      RepeatedIsFlawless(db, cluster, req, c);
    }
  }

  lemma RemovableIsFlawless(db: Db, cluster: string, req: RemovalRequest, c: Cause)
    requires Removable(db, cluster, req)
    ensures !Warranted(db, cluster, req, c)
  {
    hide Owned, Ended, Complete;
    NotDelivered(db, req);
    if (c.NoHost? || c.Misnamed? || c.Gone? || c.Taken?) && c.node < |req.nodes| { assert NodeFree(db, req, c.node); }
  }

  lemma RepeatedIsFlawless(db: Db, cluster: string, req: RemovalRequest, c: Cause)
    requires Repeated(db, cluster, req)
    ensures !FirstCause(db, cluster, req, c)
  {
    hide Owned, Ended, Complete, Names, Joins;
  }

  // ---------- What a batch writes ----------

  ghost function RemovalOp(g: Group, gid: string, host: Id, revision: int): Op {
    Op(RemoveNode, g.zone, gid, host, revision, "", Pending, None, 0, "")
  }

  // The rows from next on are one operation and one removal for each of the first count nodes.
  ghost predicate InsertedAt(db: Db, d: Db, g: Group, req: RemovalRequest, revision: int, count: nat, o: Id)
    requires count <= |req.nodes|
  {
    if db.next <= o < db.next + count then
      o in d.ops && d.ops[o] == RemovalOp(g, req.group, req.nodes[o - db.next].host, revision) &&
      o in d.removals && d.removals[o] == Removal(req.group, req.nodes[o - db.next].host, false, revision, Some(req))
    else
      (o in d.ops <==> o in db.ops) && (o in db.ops ==> d.ops[o] == db.ops[o]) &&
      (o in d.removals <==> o in db.removals) && (o in db.removals ==> d.removals[o] == db.removals[o])
  }

  ghost predicate Inserted(db: Db, d: Db, g: Group, req: RemovalRequest, revision: int, count: nat)
    requires count <= |req.nodes|
  {
    d == db.(next := db.next + count, ops := d.ops, removals := d.removals) &&
    forall o: Id :: InsertedAt(db, d, g, req, revision, count, o)
  }

  lemma {:induction false} BatchInsertsAt(db: Db, g: Group, req: RemovalRequest, revision: int, count: nat, o: Id)
    requires count <= |req.nodes|
    ensures var d := AddRemovals(db, g, req, revision, count);
      d.next == db.next + count && InsertedAt(db, d, g, req, revision, count, o)
  {
    if count > 0 { BatchInsertsAt(db, g, req, revision, count - 1, o); }
  }

  lemma {:induction false} BatchFrame(db: Db, g: Group, req: RemovalRequest, revision: int, count: nat)
    requires count <= |req.nodes|
    ensures var d := AddRemovals(db, g, req, revision, count); d == db.(next := db.next + count, ops := d.ops, removals := d.removals)
  {
    if count > 0 { BatchFrame(db, g, req, revision, count - 1); }
  }

  lemma BatchInserts(db: Db, g: Group, req: RemovalRequest, revision: int, count: nat)
    requires count <= |req.nodes|
    ensures Inserted(db, AddRemovals(db, g, req, revision, count), g, req, revision, count)
  {
    hide InsertedAt, AddRemovals;
    BatchFrame(db, g, req, revision, count);
    forall o: Id ensures InsertedAt(db, AddRemovals(db, g, req, revision, count), g, req, revision, count, o) {
      BatchInsertsAt(db, g, req, revision, count, o);
    }
  }

  // A committed batch lowers the target by its nodes, raises the revision by one, and adds exactly
  // one removal and its operation for each node, in order; nothing else changes.
  lemma BatchWrites(db: Db, cluster: string, req: RemovalRequest)
    requires Sound(db) && |req.nodes| <= MAX && Removable(db, cluster, req)
    ensures var g, d := db.groups[req.group], RemoveBatch(db, cluster, req).0;
      var lowered := g.(target := g.target - |req.nodes|, revision := g.revision + 1);
      d.groups == db.groups[req.group := lowered] && Inserted(db.(groups := d.groups), d, g, req, g.revision + 1, |req.nodes|)
  {
    hide Sound, NodesError, NodeFree, Delivered, IsReplay, AddRemovals, Inserted, WellFormedNodes, Complete;
    BatchCommitsExactly(db, cluster, req);
    GroupTyped(db, req.group);
    var g := db.groups[req.group];
    var lowered := Lower(db, req.group, |req.nodes|, g.revision + 1);
    BatchInserts(lowered, g, req, g.revision + 1, |req.nodes|);
    InsertedKeepsGroups(lowered, RemoveBatch(db, cluster, req).0, g, req, g.revision + 1, |req.nodes|);
  }

  lemma InsertedKeepsGroups(db: Db, d: Db, g: Group, req: RemovalRequest, revision: int, count: nat)
    requires count <= |req.nodes| && Inserted(db, d, g, req, revision, count)
    ensures d.groups == db.groups
  {
  }

  // ---------- CreateRemoval ----------

  ghost predicate SoleRemovable(db: Db, cluster: string, expected: int, r: NamedRemoval) {
    cluster != "" && r.group != "" && r.name != "" && r.provider != "" && r.group in db.groups &&
    var g := db.groups[r.group];
    g.cluster == cluster && g.revision == expected && (!r.preserve ==> g.target > g.min && g.revision < MAX) &&
    r.host in db.hosts && db.hosts[r.host].group == r.group && db.hosts[r.host].provider == r.provider &&
    !Ended(db.hosts[r.host].state) && !Owned(db, r.host)
  }

  // A single removal commits exactly then; a preserving one leaves the group row alone, any other
  // takes one off the target. Its revision increment is not guarded: at the largest revision the
  // table's constraint refuses it.
  lemma RemovalCommitsExactly(db: Db, cluster: string, expected: int, r: NamedRemoval)
    requires Sound(db)
    ensures RemoveOne(db, cluster, expected, r).1.None? <==> SoleRemovable(db, cluster, expected, r)
    ensures !SoleRemovable(db, cluster, expected, r) ==> RemoveOne(db, cluster, expected, r).0 == db
    ensures SoleRemovable(db, cluster, expected, r) ==>
      var g := db.groups[r.group];
      var g' := if r.preserve then g else g.(target := g.target - 1, revision := g.revision + 1);
      RemoveOne(db, cluster, expected, r).0 ==
        db.(next := db.next + 1, groups := db.groups[r.group := g'],
            ops := db.ops[db.next := RemovalOp(g, r.group, r.host, g'.revision)],
            removals := db.removals[db.next := Removal(r.group, r.host, r.preserve, g'.revision, None)])
  {
    hide Sound, Owned, UnderRemoval, Wrap;
    OwnedIsUnderRemoval(db, r.host);
    if r.group in db.groups {
      GroupTyped(db, r.group);
      NextWraps(db.groups[r.group].revision);
      assert db.groups[r.group := db.groups[r.group]] == db.groups;
    }
  }

  lemma NextWraps(n: int)
    requires 0 <= n <= MAX
    ensures Wrap(n + 1) == (if n < MAX then n + 1 else MIN)
  {
  }

  datatype SoleCause =
    | SoleIncomplete | SoleNoGroup | SoleOtherCluster | SoleStale | SoleNoHost | SoleMisnamed | SoleAtMinimum | SoleExhausted | SoleTaken

  function SoleCode(c: SoleCause): Error {
    match c
    case SoleIncomplete => Invalid
    case SoleNoGroup => NotFound
    case SoleOtherCluster => Forbidden
    case SoleStale => Conflict
    case SoleNoHost => NotFound
    case SoleMisnamed => Forbidden
    case SoleAtMinimum => Limit
    case SoleExhausted => Conflict
    case SoleTaken => Conflict
  }

  function SoleTurn(c: SoleCause): nat {
    match c
    case SoleIncomplete => 0
    case SoleNoGroup => 1
    case SoleOtherCluster => 2
    case SoleStale => 3
    case SoleNoHost => 4
    case SoleMisnamed => 5
    case SoleAtMinimum => 6
    case SoleExhausted => 7
    case SoleTaken => 8
  }

  ghost predicate SoleWarranted(db: Db, cluster: string, expected: int, r: NamedRemoval, c: SoleCause) {
    match c
    case SoleIncomplete => cluster == "" || r.group == "" || r.name == "" || r.provider == ""
    case SoleNoGroup => r.group !in db.groups
    case SoleOtherCluster => r.group in db.groups && db.groups[r.group].cluster != cluster
    case SoleStale => r.group in db.groups && db.groups[r.group].revision != expected
    case SoleNoHost => r.host !in db.hosts || Ended(db.hosts[r.host].state)
    case SoleMisnamed => r.host in db.hosts && (db.hosts[r.host].group != r.group || db.hosts[r.host].provider != r.provider)
    case SoleAtMinimum => !r.preserve && r.group in db.groups && db.groups[r.group].target <= db.groups[r.group].min
    case SoleExhausted => !r.preserve && r.group in db.groups && db.groups[r.group].revision == MAX
    case SoleTaken => Owned(db, r.host)
  }

  ghost predicate SoleFirst(db: Db, cluster: string, expected: int, r: NamedRemoval, c: SoleCause) {
    SoleWarranted(db, cluster, expected, r, c) &&
    forall d: SoleCause :: SoleTurn(d) < SoleTurn(c) ==> !SoleWarranted(db, cluster, expected, r, d)
  }

  lemma RemovalRefusedExactly(db: Db, cluster: string, expected: int, r: NamedRemoval, e: Error)
    requires Sound(db)
    ensures RemoveOne(db, cluster, expected, r).1 == Some(e) <==> exists c :: SoleFirst(db, cluster, expected, r, c) && SoleCode(c) == e
  {
    hide Sound, SoleFirst, RemoveOne;
    if RemoveOne(db, cluster, expected, r).1.Some? {
      var c := SoleCaused(db, cluster, expected, r);
      if d :| SoleFirst(db, cluster, expected, r, d) && SoleCode(d) == e { OneSoleFirst(db, cluster, expected, r, c, d); }
    } else if d :| SoleFirst(db, cluster, expected, r, d) && SoleCode(d) == e {
      RemovalCommitsExactly(db, cluster, expected, r);
      SoleFlawless(db, cluster, expected, r, d);
    }
  }

  lemma SoleCaused(db: Db, cluster: string, expected: int, r: NamedRemoval) returns (c: SoleCause)
    requires Sound(db) && RemoveOne(db, cluster, expected, r).1.Some?
    ensures SoleFirst(db, cluster, expected, r, c) && RemoveOne(db, cluster, expected, r).1 == Some(SoleCode(c))
  {
    hide Sound, Owned, UnderRemoval, Wrap;
    OwnedIsUnderRemoval(db, r.host);
    if r.group in db.groups {
      GroupTyped(db, r.group);
      NextWraps(db.groups[r.group].revision);
    }
    c := if cluster == "" || r.group == "" || r.name == "" || r.provider == "" then SoleIncomplete
         else if r.group !in db.groups then SoleNoGroup
         else if db.groups[r.group].cluster != cluster then SoleOtherCluster
         else if db.groups[r.group].revision != expected then SoleStale
         else if r.host !in db.hosts || Ended(db.hosts[r.host].state) then SoleNoHost
         else if db.hosts[r.host].group != r.group || db.hosts[r.host].provider != r.provider then SoleMisnamed
         else if !r.preserve && db.groups[r.group].target <= db.groups[r.group].min then SoleAtMinimum
         else if !r.preserve && db.groups[r.group].revision == MAX then SoleExhausted
         else SoleTaken;
  }

  lemma OneSoleFirst(db: Db, cluster: string, expected: int, r: NamedRemoval, c: SoleCause, d: SoleCause)
    requires SoleFirst(db, cluster, expected, r, c) && SoleFirst(db, cluster, expected, r, d)
    ensures c == d
  {
    hide SoleWarranted;
    assert SoleTurn(c) == SoleTurn(d);
  }

  lemma SoleFlawless(db: Db, cluster: string, expected: int, r: NamedRemoval, c: SoleCause)
    requires SoleRemovable(db, cluster, expected, r)
    ensures !SoleWarranted(db, cluster, expected, r, c) && !SoleFirst(db, cluster, expected, r, c)
  {
    hide Owned;
  }
}
