// The store in its own form (internal/capacity/store.go, internal/capacity/removals.go): an object
// whose methods update the tables statement by statement, with the loops the Go code has. Each
// method is proved against the transaction it implements.

module Store {
  import opened Options
  import opened Int64
  import opened Counting
  import opened Selection
  import opened Capacity
  import opened Admission
  import opened Coupling
  import opened AdmissionSound
  import opened Progress
  import opened Safety
  import opened Locks
  import R = Removals

  // ---------- ORDER BY created_at DESC LIMIT k ----------

  method Maximum(s: set<Id>) returns (m: Id)
    requires s != {}
    ensures m in s && forall x :: x in s ==> x <= m
  {
    m :| m in s;
    var rest := s - {m};
    while rest != {}
      invariant rest <= s && m in s
      invariant forall x :: x in s && x !in rest ==> x <= m
      decreases |rest|
    {
      var x :| x in rest;
      rest := rest - {x};
      if x > m { m := x; }
    }
  }

  predicate Descending(rows: seq<Id>) {
    forall i, j :: 0 <= i < j < |rows| ==> rows[i] > rows[j]
  }

  function Rows(rows: seq<Id>): set<Id> { set r | r in rows }

  lemma Append(rows: seq<Id>, m: Id)
    requires Descending(rows) && forall x :: x in Rows(rows) ==> m < x
    ensures Descending(rows + [m]) && Rows(rows + [m]) == Rows(rows) + {m}
  {
    forall i | 0 <= i < |rows| ensures m < rows[i] { assert rows[i] in Rows(rows); }
  }

  predicate Ahead(rows: seq<Id>, rest: set<Id>) { forall x, y :: x in Rows(rows) && y in rest ==> y < x }

  lemma TakeLargest(s: set<Id>, rows: seq<Id>, rest: set<Id>, m: Id)
    requires Descending(rows) && Ahead(rows, rest) && rest <= s && Rows(rows) == s - rest
    requires m in rest && forall y :: y in rest ==> y <= m
    ensures Descending(rows + [m]) && Ahead(rows + [m], rest - {m}) && Rows(rows + [m]) == s - (rest - {m})
  {
    Append(rows, m);
  }

  // The k newest, newest first.
  method SelectNewest(s: set<Id>, k: int) returns (rows: seq<Id>)
    requires k >= 0
    ensures Descending(rows) && Rows(rows) == Newest(s, k) && |rows| == |Newest(s, k)|
  {
    rows := [];
    var rest := s;
    while |rows| < k && rest != {}
      invariant |rows| <= k && Descending(rows) && rest <= s
      invariant Rows(rows) == s - rest && |rows| + |rest| == |s|
      invariant Ahead(rows, rest)
      decreases |rest|
    {
      var m := Maximum(rest);
      TakeLargest(s, rows, rest, m);
      rows := rows + [m];
      rest := rest - {m};
    }
    RowsCard(rows);
    NewestUnique(s, k, Rows(rows));
  }

  lemma {:induction false} RowsCard(rows: seq<Id>)
    requires Descending(rows)
    ensures |Rows(rows)| == |rows|
  {
    if rows != [] {
      var front, last := rows[..|rows| - 1], rows[|rows| - 1];
      RowsCard(front);
      assert Rows(rows) == Rows(front) + {last};
      assert last !in Rows(front);
    }
  }

  // ---------- cancelPending, row by row ----------

  lemma CancelOneMore(db: Db, gid: string, done: set<Id>, o: Id)
    requires Linked(db) && done + {o} <= Cancellable(db, gid) && o !in done
    ensures done + {o} <= db.ops.Keys && done <= db.ops.Keys
    ensures var d := CancelOps(db, done);
      o in d.ops && d.ops[o].host == o && o in d.hosts && o in d.resv &&
      CancelOps(db, done + {o}) == d.(ops := d.ops[o := CancelledOp(d.ops[o])],
                                      hosts := d.hosts[o := d.hosts[o].(state := Terminated)],
                                      resv := d.resv[o := d.resv[o].(state := Released)])
  {
    hide Linked, Cancellable, HostsOf;
    CancellableHosts(db, gid);
    HostsAreOps(db, done);
    HostsAreOps(db, done + {o});
    LinkedHasRow(db, o);
    var d, d' := CancelOps(db, done), CancelOps(db, done + {o});
    assert d'.ops == d.ops[o := CancelledOp(d.ops[o])];
    assert d'.hosts == d.hosts[o := d.hosts[o].(state := Terminated)];
    assert d'.resv == d.resv[o := d.resv[o].(state := Released)];
  }

  lemma CancelNone(db: Db)
    ensures CancelOps(db, {}) == db
  {
    assert CancelOps(db, {}).ops == db.ops && CancelOps(db, {}).hosts == db.hosts && CancelOps(db, {}).resv == db.resv;
  }

  lemma MarkNone(db: Db)
    ensures MarkExcess(db, {}) == db
  {
    assert MarkExcess(db, {}).hosts == db.hosts;
  }

  // ---------- What the methods implement ----------

  // Undisturbed, a transaction observes the current tables and picks the newest rows.
  function ObservedIn(db: Db, req: CapacityRequest): Observed {
    Observed(Enabled(db, req.group), RegisteredHosts(db, req.group))
  }

  ghost function PickFor(db: Db, req: CapacityRequest): Pick {
    if req.group in db.groups && Delta(db.groups[req.group], req) < 0
    then NewestPick(db, req.group, -Delta(db.groups[req.group], req)) else Pick({}, {})
  }

  lemma NewestPickOk(db: Db, gid: string, count: nat)
    ensures PickOk(db, gid, count, NewestPick(db, gid, count))
  {
  }

  lemma PickForFits(db: Db, req: CapacityRequest)
    ensures req.group in db.groups ==> PickFits(db, req, PickFor(db, req))
  {
    hide PickOk, NewestPick;
    if req.group in db.groups && Delta(db.groups[req.group], req) < 0 {
      NewestPickOk(db, req.group, -Delta(db.groups[req.group], req));
      PickOps(db, req.group, -Delta(db.groups[req.group], req), PickFor(db, req));
    }
  }

  lemma PickOps(db: Db, gid: string, count: int, pick: Pick)
    requires PickOk(db, gid, count, pick)
    ensures pick.cancel <= db.ops.Keys
  {
  }

  // Storing the request and the new target first changes nothing the selections read.
  lemma NewestPickSame(db: Db, d: Db, gid: string, count: nat)
    requires d == db.(groups := d.groups, requests := d.requests)
    ensures NewestPick(d, gid, count) == NewestPick(db, gid, count)
  {
    hide Newest;
    assert Cancellable(d, gid) == Cancellable(db, gid);
    var chosen := Newest(Cancellable(db, gid), count);
    MarkableSame(db, d, gid, chosen);
  }

  lemma MarkableSame(db: Db, d: Db, gid: string, chosen: set<Id>)
    requires d == db.(groups := d.groups, requests := d.requests) && chosen <= db.ops.Keys
    ensures Markable(CancelOps(d, chosen), gid) == Markable(CancelOps(db, chosen), gid)
  {
    assert CancelOps(d, chosen).hosts == CancelOps(db, chosen).hosts;
    assert CancelOps(d, chosen).ops == CancelOps(db, chosen).ops;
    hide CancelOps;
  }

  // ---------- The columns the statements' conditions name ----------

  // These restate SQL, for contracts only: no function or method of the model uses them.

  // id, kind, host, lease_owner, fence and an unexpired lease.
  ghost predicate Fenced(db: Db, t: Token) {
    t.op in db.ops &&
    var op := db.ops[t.op];
    op.kind == Provision && op.host == t.host && op.fence == t.fence &&
    op.lease.Some? && op.lease.value.owner == t.owner && op.lease.value.until > db.clock
  }

  // cluster_zones is ready and approved.
  ghost predicate Approves(db: Db, group: string) {
    group in db.groups &&
    var p := Place(db.groups[group].cluster, db.groups[group].zone);
    p in db.members && db.members[p] == Membership(true, true)
  }

  // The admission gate: group, pool, membership, zone and cluster.
  ghost predicate GateOpen(db: Db, g: Group) {
    g.active && g.pool in db.pools && db.pools[g.pool].enabled &&
    Place(g.cluster, g.zone) in db.members && db.members[Place(g.cluster, g.zone)] == Membership(true, true) &&
    g.zone in db.zones && db.zones[g.zone].ready && db.zones[g.zone].enabled && g.cluster in db.clusters && db.clusters[g.cluster]
  }

  // The membership is approved, and the token's owner is the registered Dominator of the group's zone.
  ghost predicate Authorizes(db: Db, t: Token)
    requires t.op in db.ops
  {
    var group := db.ops[t.op].group;
    Approves(db, group) && db.groups[group].zone in db.dominators && db.dominators[db.groups[group].zone] == t.owner
  }

  // worker_provisioning_state is of this operation and pins revision 1 of the version.
  ghost predicate Shows(b: Binding, o: Id, version: string) {
    b.op == o && b.expected.Some? && b.expected.value.revision == 1 && b.expected.value.version == version
  }

  // What the claim looks for.
  ghost predicate Waiting(db: Db, o: Id, zone: string, owner: string) {
    o in db.ops && db.ops[o].kind == Provision && db.ops[o].zone == zone &&
    (db.ops[o].state == Pending ||
      (db.ops[o].state in {Leased, Launching} && (db.ops[o].lease == None || db.ops[o].lease.value.until <= db.clock))) &&
    zone in db.dominators && db.dominators[zone] == owner &&
    db.ops[o].group in db.groups && db.groups[db.ops[o].group].zone == zone &&
    Place(db.groups[db.ops[o].group].cluster, zone) in db.members &&
    db.members[Place(db.groups[db.ops[o].group].cluster, zone)] == Membership(true, true)
  }

  // The hosts the registered-capacity query counts.
  ghost function RegisteredSet(db: Db, group: string): set<Id> {
    set h | h in db.hosts && db.hosts[h].group == group &&
            db.hosts[h].state in {Registering, Converging, Ready, Draining, Unhealthy, Terminating}
  }

  ghost function Registered(db: Db, group: string): nat { |RegisteredSet(db, group)| }

  lemma RegisteredCounts(db: Db, group: string)
    requires Linked(db)
    ensures Registered(db, group) == RegisteredHosts(db, group)
  {
    HostsBelowNext(db);
    hide Linked;
    SumIndicator(RegisteredSet(db, group), db.next);
    SumSame(Indicator(RegisteredSet(db, group)), RegisteredOf(db, group), db.next);
  }

  lemma NoWrap(db: Db, req: CapacityRequest)
    requires Sound(db) && TypedRequest(req)
    ensures req.group in db.groups && req.desired >= 0 ==>
      Wrap(req.desired - db.groups[req.group].target) == req.desired - db.groups[req.group].target
  {
    hide Linked, Coupled, NodesDistinct, PoolBound;
    if req.group in db.groups { assert TypedGroup(db.groups[req.group]); }
  }

  lemma BatchPromises(db: Db, cluster: string, req: RemovalRequest)
    requires Sound(db) && |req.nodes| <= MAX
    ensures var d, error := RemoveBatch(db, cluster, req).0, RemoveBatch(db, cluster, req).1;
      (d != db <==> R.Removable(db, cluster, req)) && (error.Some? ==> d == db) &&
      (forall e :: error == Some(e) <==> exists c :: R.FirstCause(db, cluster, req, c) && R.Code(c) == e) &&
      (d != db ==>
        req.group in db.groups &&
        var g := db.groups[req.group];
        d.groups == db.groups[req.group := g.(target := g.target - |req.nodes|, revision := g.revision + 1)] &&
        R.Inserted(db.(groups := d.groups), d, g, req, g.revision + 1, |req.nodes|))
  {
    hide Sound, RemoveBatch, R.FirstCause, R.Inserted;
    R.BatchCommitsExactly(db, cluster, req);
    R.RefusedKeeps(db, cluster, req);
    forall e ensures RemoveBatch(db, cluster, req).1 == Some(e) <==> exists c :: R.FirstCause(db, cluster, req, c) && R.Code(c) == e {
      R.BatchRefusedExactly(db, cluster, req, e);
    }
    if R.Removable(db, cluster, req) { R.BatchWrites(db, cluster, req); }
  }

  lemma SolePromises(db: Db, cluster: string, expected: int, r: NamedRemoval)
    requires Sound(db)
    ensures var error := RemoveOne(db, cluster, expected, r).1;
      (error.None? <==> R.SoleRemovable(db, cluster, expected, r)) && (error.Some? ==> RemoveOne(db, cluster, expected, r).0 == db) &&
      forall e :: error == Some(e) <==> exists c :: R.SoleFirst(db, cluster, expected, r, c) && R.SoleCode(c) == e
  {
    hide Sound, RemoveOne, R.SoleFirst;
    R.RemovalCommitsExactly(db, cluster, expected, r);
    forall e
      ensures RemoveOne(db, cluster, expected, r).1 == Some(e) <==> exists c :: R.SoleFirst(db, cluster, expected, r, c) && R.SoleCode(c) == e {
      R.RemovalRefusedExactly(db, cluster, expected, r, e);
    }
  }

  lemma WaitingIsClaimable(db: Db, o: Id, zone: string, owner: string)
    requires Linked(db)
    ensures Waiting(db, o, zone, owner) <==> o in db.ops && db.ops[o].zone == zone && Claimable(db, o, owner)
  {
    OwnedRow(db, Token(o, o, owner, 0));
    hide Linked;
  }

  lemma WaitingColumns(db: Db, o: Id, zone: string, owner: string)
    requires Sound(db) && Waiting(db, o, zone, owner)
    ensures HasRow(db, o) && db.ops[o].host == o && db.ops[o].zone == zone && db.ops[o].group in db.groups
    ensures db.ops[o].lease.None? || db.ops[o].lease.value.until <= db.clock
    ensures var g := db.groups[db.ops[o].group];
      g.zone == zone && Place(g.cluster, zone) in db.members && db.members[Place(g.cluster, zone)] == Membership(true, true) &&
      zone in db.dominators && db.dominators[zone] == owner
  {
    hide Sound, Linked, Evidence;
    SoundLinked(db);
    OwnedRow(db, Token(o, o, owner, 0));
    RowOkAt(db, o);
  }

  class Store {
    var db: Db

    constructor ()
      ensures db == EMPTY && Sound(db)
    {
      db := EMPTY;
    }

    // Three inserts.
    method ProvisionIntent(gid: string, g: Group, revision: int)
      modifies this
      ensures db == AddIntent(old(db), gid, g, revision)
    {
      var id := db.next;
      db := db.(next := id + 1, ops := db.ops[id := Op(Provision, g.zone, gid, id, revision, g.template, Pending, None, 0, "")]);
      db := db.(hosts := db.hosts[id := Host(gid, id, Requested, "", "", false, g.template, "")]);
      db := db.(resv := db.resv[id := Reservation(gid, g.vcpu, g.memory, Reserved)]);
    }

    // One row at a time: the operation, its host, its credits.
    method CancelRows(gid: string, intents: seq<Id>)
      requires Linked(db) && Descending(intents) && Rows(intents) <= Cancellable(db, gid)
      modifies this
      ensures Rows(intents) <= old(db).ops.Keys && db == CancelOps(old(db), Rows(intents))
    {
      hide Linked, Cancellable, CancelOps, Rows, Descending;
      CancelNone(db);
      NoRows(intents);
      var i := 0;
      while i < |intents|
        invariant 0 <= i <= |intents|
        invariant Rows(intents[..i]) <= old(db).ops.Keys && db == CancelOps(old(db), Rows(intents[..i]))
      {
        var o := intents[i];
        NextRow(intents, i);
        CancelOneMore(old(db), gid, Rows(intents[..i]), o);
        var h := db.ops[o].host;
        db := db.(ops := db.ops[o := CancelledOp(db.ops[o])]);
        db := db.(hosts := db.hosts[h := db.hosts[h].(state := Terminated)]);
        db := db.(resv := db.resv[h := db.resv[h].(state := Released)]);
        i := i + 1;
      }
      assert intents[..i] == intents;
    }

    method CancelPending(gid: string, count: int)
      requires Linked(db) && count >= 0
      modifies this
      ensures db == CancelWith(old(db), NewestPick(old(db), gid, count))
    {
      hide Linked, Cancellable, Markable, CancelOps, MarkExcess, Newest, Rows, Descending;
      var intents := SelectNewest(Cancellable(db, gid), count);
      NewestWithin(Cancellable(db, gid), count);
      CancelRows(gid, intents);
      var remaining := count - |intents|;
      NewestNone(Markable(db, gid));
      MarkNone(db);
      if remaining > 0 {
        var marks := SelectNewest(Markable(db, gid), remaining);
        db := MarkExcess(db, Rows(marks));
      }
    }

    // Every check, in the order the transaction makes them: nothing is returned exactly for an
    // admissible request, an error exactly when it is the first one warranted, and a success
    // exactly for a replay, from what is stored.
    method Judge(req: CapacityRequest) returns (refusal: Option<Reply>)
      requires Sound(db) && TypedRequest(req)
      ensures refusal.None? <==> Admissible(db, req, ObservedIn(db, req))
      ensures forall e :: refusal == Some(Rejected(e)) <==> FirstCause(db, req, ObservedIn(db, req), e)
      ensures (refusal.Some? && refusal.value.Accepted?) <==> Replays(db, req)
      ensures Replays(db, req) ==> refusal == Some(Accepted(req.request, req.group, req.desired, db.requests[KeyOf(req)].result))
      ensures refusal == Some(Rejected(Inactive)) <==>
        req.group != "" && req.request != "" && req.cluster != "" && req.template != "" && req.desired >= 0 && req.expected >= 0 &&
        req.group in db.groups && db.groups[req.group].cluster == req.cluster && RequestKey(req.group, req.request) !in db.requests &&
        !GateOpen(db, db.groups[req.group])
      ensures refusal.None? ==>
        req.group in db.groups && GateOpen(db, db.groups[req.group]) &&
        (req.desired < db.groups[req.group].target ==> Registered(db, req.group) <= req.desired)
      ensures refusal == Some(Rejected(Fulfilled)) ==>
        req.group in db.groups && req.desired < db.groups[req.group].target && req.desired < Registered(db, req.group)
      ensures refusal == Refusal(db, req, ObservedIn(db, req))
    {
      hide Sound, Used, Fits, RegisteredHosts, Registered, Plus, Scale, Wrap;
      SoundLinked(db);
      RegisteredCounts(db, req.group);
      NoWrap(db, req);
      AdmittedExactly(db, req, ObservedIn(db, req));
      forall e ensures Refusal(db, req, ObservedIn(db, req)) == Some(Rejected(e)) <==> FirstCause(db, req, ObservedIn(db, req), e) {
        RefusedExactly(db, req, ObservedIn(db, req), e);
      }
      ReplayedExactly(db, req, ObservedIn(db, req));
      if !WellFormedRequest(req) { return Some(Rejected(Invalid)); }
      if req.group !in db.groups { return Some(Rejected(NotFound)); }
      var g := db.groups[req.group];
      if g.cluster != req.cluster { return Some(Rejected(Forbidden)); }
      if KeyOf(req) in db.requests {
        var previous := db.requests[KeyOf(req)];
        if previous.req != req { return Some(Rejected(ReplayMismatch)); }
        return Some(Accepted(req.request, req.group, req.desired, previous.result));
      }
      if !Enabled(db, req.group) { return Some(Rejected(Inactive)); }
      if g.template != req.template { return Some(Rejected(TemplateMismatch)); }
      if g.revision != req.expected { return Some(Rejected(Conflict)); }
      if req.desired < g.min || req.desired > g.max || g.revision == MAX { return Some(Rejected(Limit)); }
      if g.pool !in db.pools { return Some(Rejected(NotFound)); }
      var limit := db.pools[g.pool].limit;
      var delta := Wrap(req.desired - g.target);
      if delta > 0 && !Fits(g, limit, Used(db, g.pool), delta) { return Some(Rejected(Limit)); }
      if delta < 0 && req.desired < RegisteredHosts(db, req.group) { return Some(Rejected(Fulfilled)); }
      return None;
    }

    method SetTarget(req: CapacityRequest) returns (reply: Reply)
      requires Sound(db) && TypedRequest(req)
      modifies this
      ensures Sound(db)
      ensures req.group in old(db).groups ==> PickFits(old(db), req, PickFor(old(db), req))
      ensures (db, reply) == Admission.SetTarget(old(db), req, ObservedIn(old(db), req), PickFor(old(db), req))
      ensures db != old(db) ==>
        req.group in old(db).groups && GateOpen(old(db), old(db).groups[req.group])
    {
      hide Sound, Linked, Early, Late, ObservedIn, PickFits, CancelWith, NewestPick, Admissible, FirstCause, Replays, AddIntent, PickOk, TypedRequest,
        Registered, GateOpen;
      ghost var was := db;
      PickForFits(was, req);
      SetTargetKeepsSound(was, req, ObservedIn(was, req), PickFor(was, req));
      var refusal := Judge(req);
      if refusal.Some? { return refusal.value; }
      PassedEarly(was, req, ObservedIn(was, req));
      var g := db.groups[req.group];
      var delta := Wrap(req.desired - g.target);
      var revision := Wrap(g.revision + 1);
      db := db.(requests := db.requests[KeyOf(req) := StoredRequest(req, revision)]);
      db := db.(groups := db.groups[req.group := db.groups[req.group].(target := req.desired, revision := revision)]);
      ghost var d := db;
      RetargetKeepsSound(was, req, ObservedIn(was, req).enabled);
      SoundLinked(d);
      hide Refusal;
      if delta > 0 {
        for i := 0 to delta
          invariant db == AddIntents(d, req.group, g, revision, i)
        {
          ProvisionIntent(req.group, g, revision);
        }
      }
      if delta < 0 {
        NewestPickSame(was, d, req.group, -delta);
        CancelPending(req.group, -delta);
      }
      reply := Accepted(req.request, req.group, req.desired, revision);
    }

    // The validation loop of a removal request, with the hosts seen so far.
    method ValidNodes(nodes: seq<RemovalNode>) returns (ok: bool)
      ensures ok == WellFormedNodes(nodes)
    {
      var seen: set<Id> := {};
      for i := 0 to |nodes|
        invariant seen == set j | 0 <= j < i :: nodes[j].host
        invariant forall j :: 0 <= j < i ==> nodes[j].provider != "" && nodes[j].name != ""
        invariant forall j, k :: 0 <= j < k < i ==> nodes[j].host != nodes[k].host
      {
        if nodes[i].provider == "" || nodes[i].name == "" || nodes[i].host in seen { return false; }
        seen := seen + {nodes[i].host};
      }
      return true;
    }

    // Every named host is checked before any target changes; the first failure decides.
    method CheckNodes(gid: string, nodes: seq<RemovalNode>) returns (error: Option<Error>)
      ensures error == NodesError(db, gid, nodes)
    {
      hide NodeError;
      for i := 0 to |nodes|
        invariant NodesError(db, gid, nodes) == NodesError(db, gid, nodes[i..])
      {
        error := NodeError(db, gid, nodes[i]);
        if error.Some? { return; }
        assert nodes[i..][1..] == nodes[i + 1..];
      }
      return None;
    }

    method CreateAutoscalerRemovals(cluster: string, req: RemovalRequest) returns (error: Option<Error>)
      requires Sound(db) && |req.nodes| <= MAX
      modifies this
      ensures Sound(db)
      ensures db != old(db) <==> R.Removable(old(db), cluster, req)
      ensures db != old(db) ==>
        var g := old(db).groups[req.group];
        db.groups == old(db).groups[req.group := g.(target := g.target - |req.nodes|, revision := g.revision + 1)] &&
        R.Inserted(old(db).(groups := db.groups), db, g, req, g.revision + 1, |req.nodes|)
      ensures forall e :: error == Some(e) <==> exists c :: R.FirstCause(old(db), cluster, req, c) && R.Code(c) == e
      ensures (db, error) == RemoveBatch(old(db), cluster, req)
    {
      hide Sound, WellFormedNodes, NodesError, AddRemoval, R.Removable, R.FirstCause, R.Inserted;
      BatchPromises(db, cluster, req);
      RemoveBatchKeepsSound(db, cluster, req);
      if cluster == "" || req.group == "" || req.request == "" || req.expected < 0 || req.nodes == [] { return Some(Invalid); }
      var ok := ValidNodes(req.nodes);
      if !ok { return Some(Invalid); }
      if req.group !in db.groups { return Some(NotFound); }
      var g := db.groups[req.group];
      if g.cluster != cluster { return Some(Forbidden); }
      if exists i :: i in db.removals && IsReplay(db, req, i) {
        if exists i :: i in db.removals && IsReplay(db, req, i) && db.removals[i].batch.value != req { return Some(ReplayMismatch); }
        return None;
      }
      if g.revision != req.expected { return Some(Conflict); }
      if Wrap(g.target - |req.nodes|) < g.min || g.revision == MAX { return Some(Limit); }
      error := CheckNodes(req.group, req.nodes);
      if error.Some? { return; }
      var revision := Wrap(g.revision + 1);
      db := db.(groups := db.groups[req.group := db.groups[req.group].(target := db.groups[req.group].target - |req.nodes|, revision := revision)]);
      ghost var lowered := db;
      for i := 0 to |req.nodes|
        invariant db == AddRemovals(lowered, g, req, revision, i)
      {
        var id := db.next;
        ghost var d := db;
        var removal := Removal(req.group, req.nodes[i].host, false, revision, Some(req));
        db := db.(next := id + 1, ops := db.ops[id := Op(RemoveNode, g.zone, req.group, removal.host, revision, "", Pending, None, 0, "")]);
        db := db.(removals := db.removals[id := removal]);
        RemovalInserted(d, req.group, g, removal);
      }
    }

    method CreateRemoval(cluster: string, expected: int, r: NamedRemoval) returns (error: Option<Error>)
      requires Sound(db)
      modifies this
      ensures Sound(db)
      ensures error.None? <==> R.SoleRemovable(old(db), cluster, expected, r)
      ensures error.Some? ==> db == old(db)
      ensures error.None? ==>
        var g := old(db).groups[r.group];
        var g' := if r.preserve then g else g.(target := g.target - 1, revision := g.revision + 1);
        db == old(db).(next := old(db).next + 1, groups := old(db).groups[r.group := g'],
                       ops := old(db).ops[old(db).next := R.RemovalOp(g, r.group, r.host, g'.revision)],
                       removals := old(db).removals[old(db).next := Removal(r.group, r.host, r.preserve, g'.revision, None)])
      ensures forall e :: error == Some(e) <==> exists c :: R.SoleFirst(old(db), cluster, expected, r, c) && R.SoleCode(c) == e
      ensures (db, error) == RemoveOne(old(db), cluster, expected, r)
    {
      hide Sound, UnderRemoval, R.SoleFirst;
      SolePromises(db, cluster, expected, r);
      R.RemovalCommitsExactly(db, cluster, expected, r);
      RemoveOneKeepsSound(db, cluster, expected, r);
      if cluster == "" || r.group == "" || r.name == "" || r.provider == "" { return Some(Invalid); }
      if r.group !in db.groups { return Some(NotFound); }
      var g := db.groups[r.group];
      if g.cluster != cluster { return Some(Forbidden); }
      if g.revision != expected { return Some(Conflict); }
      if r.host !in db.hosts { return Some(NotFound); }
      var h := db.hosts[r.host];
      if h.state.Terminated? || h.state.Terminating? || h.state.Failed? { return Some(NotFound); }
      if h.group != r.group || h.provider != r.provider { return Some(Forbidden); }
      var revision := g.revision;
      if !r.preserve {
        if g.target <= g.min { return Some(Limit); }
        revision := Wrap(revision + 1);
      }
      // The table's constraints: a non-negative revision, one removal per host.
      if revision < 0 || UnderRemoval(db, r.host) { return Some(Conflict); }
      if !r.preserve { db := db.(groups := db.groups[r.group := g.(target := g.target - 1, revision := revision)]); }
      var id := db.next;
      db := db.(next := id + 1, ops := db.ops[id := Op(RemoveNode, g.zone, r.group, r.host, revision, "", Pending, None, 0, "")]);
      db := db.(removals := db.removals[id := Removal(r.group, r.host, r.preserve, revision, None)]);
      return None;
    }

    // The oldest operation of the zone this Dominator may claim, if there is one.
    method ClaimDominator(zone: string, owner: string, duration: int) returns (valid: bool, t: Option<Token>)
      requires Sound(db)
      modifies this
      ensures Sound(db)
      ensures valid <==> zone != "" && owner != "" && 1 <= duration <= 86_400_000
      ensures !valid ==> t.None?
      ensures t.None? ==> db == old(db) && (valid ==> forall o :: !Waiting(old(db), o, zone, owner))
      ensures t.Some? ==>
        var o := t.value.op;
        Waiting(old(db), o, zone, owner) && (forall p :: Waiting(old(db), p, zone, owner) ==> o <= p) &&
        var op, g := old(db).ops[o], old(db).groups[old(db).ops[o].group];
        op.zone == zone == g.zone && (op.lease.None? || op.lease.value.until <= old(db).clock) &&
        old(db).members[Place(g.cluster, zone)] == Membership(true, true) && old(db).dominators[zone] == owner &&
        var state := if old(db).hosts[o].state in {Booting, Registering, Converging} then Launching else Leased;
        var lease := Some(Lease(owner, old(db).clock + duration));
        db == old(db).(ops := old(db).ops[o := op.(state := state, lease := lease, fence := op.fence + 1)])
      ensures valid && t.None? ==> forall o :: o in old(db).ops && old(db).ops[o].zone == zone ==> !Claimable(old(db), o, owner)
      ensures t.Some? ==>
        var o := t.value.op;
        Claimable(old(db), o, owner) && old(db).ops[o].zone == zone && db == Capacity.Claim(old(db), o, owner, duration) &&
        t.value == Token(o, old(db).ops[o].host, owner, old(db).ops[o].fence + 1) &&
        forall p :: p in old(db).ops && old(db).ops[p].zone == zone && Claimable(old(db), p, owner) ==> o <= p
    {
      hide Sound, Linked, Claimable, Waiting, PutRow;
      valid, t := zone != "" && owner != "" && MIN_LEASE <= duration <= MAX_LEASE, None;
      if !valid { return; }
      SoundLinked(db);
      forall o ensures Waiting(db, o, zone, owner) <==> o in db.ops && db.ops[o].zone == zone && Claimable(db, o, owner) {
        WaitingIsClaimable(db, o, zone, owner);
      }
      var waiting := set o | o in db.ops && db.ops[o].zone == zone && Claimable(db, o, owner);
      if waiting == {} {
        assert forall o :: o in db.ops && db.ops[o].zone == zone && Claimable(db, o, owner) ==> o in waiting;
        return;
      }
      var o := Minimum(waiting);
      assert forall p :: p in db.ops && db.ops[p].zone == zone && Claimable(db, p, owner) ==> p in waiting;
      ClaimableRow(db, o, owner);
      WaitingColumns(db, o, zone, owner);
      t := Some(Token(o, db.ops[o].host, owner, db.ops[o].fence + 1));
      ClaimKeepsSound(db, o, owner, duration);
      PutOp(db, o, ClaimedRow(RowOf(db, o), owner, db.clock + duration).op);
      db := Capacity.Claim(db, o, owner, duration);
    }

    // ---------- Fenced writes, as updates of the tables they name ----------

    // Each contract says, column by column, when the statement finds its row and what it writes, and
    // that the statement is the write of the same name in the machine.

    // WHERE id AND lease_owner AND fence AND lease_until > now: the caller still owns the operation.
    predicate Owns(t: Token)
      reads this
    {
      t.op in db.ops && db.ops[t.op].kind.Provision? && db.ops[t.op].host == t.host && Holds(db.ops[t.op], t, db.clock)
    }

    predicate Authorized(t: Token)
      requires t.op in db.ops
      reads this
    {
      MemberReady(db, db.ops[t.op].group) && DominatorOf(db, db.ops[t.op].group, t.owner)
    }

    method UpdateOp(o: Id, op: Op)
      modifies this
      ensures db == old(db).(ops := old(db).ops[o := op])
    {
      db := db.(ops := db.ops[o := op]);
    }

    method Renew(t: Token, duration: int) returns (ok: bool)
      requires Linked(db)
      modifies this
      ensures ok <==> 1 <= duration <= 86_400_000 && Fenced(old(db), t) && old(db).ops[t.op].state in {Leased, Launching} && Authorizes(old(db), t)
      ensures ok ==> db == old(db).(ops := old(db).ops[t.op := old(db).ops[t.op].(lease := Some(Lease(t.owner, old(db).clock + duration)))])
      ensures !ok ==> db == old(db)
      ensures ok == Permits(old(db), t, Write.Renew(duration)) && db == Perform(old(db), t, Write.Renew(duration))
    {
      hide Linked, PutRow;
      OwnedRow(db, t);
      if !(MIN_LEASE <= duration <= MAX_LEASE) || !Owns(t) || !Active(db.ops[t.op]) || !Authorized(t) { return false; }
      PutOp(db, t.op, db.ops[t.op].(lease := Some(Lease(t.owner, db.clock + duration))));
      UpdateOp(t.op, db.ops[t.op].(lease := Some(Lease(t.owner, db.clock + duration))));
      return true;
    }

    method BeginLaunch(t: Token) returns (ok: bool)
      requires Linked(db)
      modifies this
      ensures ok <==> Fenced(old(db), t) && old(db).ops[t.op].state in {Leased, Launching} && Authorizes(old(db), t)
      ensures ok ==> db == old(db).(ops := old(db).ops[t.op := old(db).ops[t.op].(state := Launching)])
      ensures !ok ==> db == old(db)
      ensures ok == Permits(old(db), t, Write.BeginLaunch) && db == Perform(old(db), t, Write.BeginLaunch)
    {
      hide Linked, PutRow;
      OwnedRow(db, t);
      if !Owns(t) || !Active(db.ops[t.op]) || !Authorized(t) { return false; }
      PutOp(db, t.op, db.ops[t.op].(state := Launching));
      UpdateOp(t.op, db.ops[t.op].(state := Launching));
      return true;
    }

    // The host first, then its credits.
    method RecordLaunch(t: Token, provider: string, node: string) returns (ok: bool)
      requires Linked(db)
      modifies this
      ensures ok <==>
        provider != "" && Fenced(old(db), t) && old(db).ops[t.op].state.Launching? &&
        old(db).hosts[t.host].provider in {"", provider} && (node == "" || old(db).hosts[t.host].node in {"", node})
      ensures ok ==>
        var h, c := old(db).hosts[t.host], old(db).resv[t.host];
        db == old(db).(
          hosts := old(db).hosts[t.host := h.(provider := provider, node := if node != "" then node else h.node,
                                              state := if h.state.Provisioning? then Booting else h.state)],
          resv := old(db).resv[t.host := c.(state := if c.state.Reserved? then Committed else c.state)])
      ensures !ok ==> db == old(db)
      ensures ok == Permits(old(db), t, Write.RecordLaunch(provider, node)) && db == Perform(old(db), t, Write.RecordLaunch(provider, node))
    {
      hide Linked, PutRow, MemberReady, DominatorOf;
      OwnedRow(db, t);
      if provider == "" || !Owns(t) || !db.ops[t.op].state.Launching? { return false; }
      var h := db.hosts[t.host];
      if !(h.provider == "" || h.provider == provider) || !(h.node == "" || node == "" || h.node == node) { return false; }
      h := h.(provider := provider);
      if node != "" { h := h.(node := node); }
      if h.state.Provisioning? { h := h.(state := Booting); }
      var c := db.resv[t.host];
      if c.state.Reserved? { c := c.(state := Committed); }
      PutHost(db, t.op, h, c);
      db := db.(hosts := db.hosts[t.host := h]);
      db := db.(resv := db.resv[t.host := c]);
      return true;
    }

    method SetProvisionState(t: Token, expected: HostState, next: HostState) returns (ok: bool)
      requires Linked(db)
      modifies this
      ensures ok <==>
        ((expected == Requested && next == Provisioning) || (expected == Booting && next == Registering) ||
          (expected == Registering && next == Converging)) &&
        Fenced(old(db), t) && old(db).ops[t.op].state.Launching? && old(db).hosts[t.host].state == expected
      ensures ok ==> db == old(db).(hosts := old(db).hosts[t.host := old(db).hosts[t.host].(state := next)])
      ensures !ok ==> db == old(db)
      ensures ok == Permits(old(db), t, SetState(expected, next)) && db == Perform(old(db), t, SetState(expected, next))
    {
      hide Linked, Permits, Perform;
      StateMoves(db, t, expected, next);
      if !Handoff(expected, next) || !Owns(t) || !db.ops[t.op].state.Launching? || db.hosts[t.host].state != expected { return false; }
      db := db.(hosts := db.hosts[t.host := db.hosts[t.host].(state := next)]);
      return true;
    }

    method RecordProvisionFailure(t: Token, category: string) returns (ok: bool)
      requires Linked(db)
      modifies this
      ensures ok <==> 1 <= |category| <= 80 && Fenced(old(db), t) && old(db).ops[t.op].state in {Leased, Launching}
      ensures ok ==> db == old(db).(ops := old(db).ops[t.op := old(db).ops[t.op].(error := category)])
      ensures !ok ==> db == old(db)
      ensures ok == Permits(old(db), t, RecordFailure(category)) && db == Perform(old(db), t, RecordFailure(category))
    {
      hide Linked, PutRow, MemberReady, DominatorOf;
      OwnedRow(db, t);
      if category == "" || |category| > 80 || !Owns(t) || !Active(db.ops[t.op]) { return false; }
      PutOp(db, t.op, db.ops[t.op].(error := category));
      UpdateOp(t.op, db.ops[t.op].(error := category));
      return true;
    }

    method ReleaseProvisionLease(t: Token) returns (ok: bool)
      requires Linked(db)
      modifies this
      ensures ok <==> Fenced(old(db), t) && old(db).ops[t.op].state in {Leased, Launching}
      ensures ok ==>
        var state := if old(db).hosts[t.host].state in {Booting, Registering, Converging} then Launching else Pending;
        db == old(db).(ops := old(db).ops[t.op := old(db).ops[t.op].(state := state, lease := None)])
      ensures !ok ==> db == old(db)
      ensures ok == Permits(old(db), t, ReleaseLease) && db == Perform(old(db), t, ReleaseLease)
    {
      hide Linked, PutRow, MemberReady, DominatorOf;
      OwnedRow(db, t);
      if !Owns(t) || !Active(db.ops[t.op]) { return false; }
      var op := db.ops[t.op].(state := if Handed(db.hosts[t.host].state) then Launching else Pending, lease := None);
      PutOp(db, t.op, op);
      UpdateOp(t.op, op);
      return true;
    }

    // INSERT ... ON CONFLICT(host_id): a repeated bind of the same Node succeeds and changes nothing.
    method BindProvisionNode(t: Token, node: NodeIdentity) returns (ok: bool)
      requires Linked(db)
      modifies this
      ensures ok <==>
        node.name == t.host && node.uid != "" && node.provider != "" && |node.contract| == 64 &&
        Fenced(old(db), t) && old(db).ops[t.op].state.Launching? && old(db).hosts[t.host].state.Registering? &&
        Approves(old(db), old(db).ops[t.op].group) &&
        (forall h :: h in old(db).bindings && h != t.host ==> old(db).bindings[h].node.uid != node.uid && old(db).bindings[h].op != t.op) &&
        (t.host in old(db).bindings ==> old(db).bindings[t.host].op == t.op && old(db).bindings[t.host].node == node)
      ensures ok && t.host !in old(db).bindings ==> db == old(db).(bindings := old(db).bindings[t.host := Binding(t.op, node, None, false)])
      ensures !ok || t.host in old(db).bindings ==> db == old(db)
      ensures ok == Permits(old(db), t, BindNode(node)) && db == Perform(old(db), t, BindNode(node))
    {
      hide Linked, PutRow;
      OwnedRow(db, t);
      if node.name != t.host || node.uid == "" || node.provider == "" || |node.contract| != 64 { return false; }
      if !Owns(t) || !db.ops[t.op].state.Launching? || !db.hosts[t.host].state.Registering? || !MemberReady(db, db.ops[t.op].group) { return false; }
      if exists h :: h in db.bindings && h != t.host && (db.bindings[h].node.uid == node.uid || db.bindings[h].op == t.op) { return false; }
      if t.host in db.bindings {
        PutBinding(db, t.op, db.bindings[t.host], db.hosts[t.host]);
        return db.bindings[t.host].op == t.op && db.bindings[t.host].node == node;
      }
      PutBinding(db, t.op, Binding(t.op, node, None, false), db.hosts[t.host]);
      db := db.(bindings := db.bindings[t.host := Binding(t.op, node, None, false)]);
      return true;
    }

    // The first pin stays; the host's desired version follows whichever is stored.
    method PinProvisionExpectedState(t: Token, pin: Expected) returns (ok: bool)
      requires Linked(db)
      modifies this
      ensures ok <==>
        pin.revision == 1 && 1 <= |pin.version| <= 128 &&
        Fenced(old(db), t) && old(db).ops[t.op].state.Launching? && old(db).hosts[t.host].state.Registering? &&
        t.host in old(db).bindings && old(db).bindings[t.host].op == t.op &&
        (old(db).bindings[t.host].expected.Some? ==>
          old(db).bindings[t.host].expected.value.revision == 1 && old(db).bindings[t.host].expected.value.version != "")
      ensures ok ==>
        var b := old(db).bindings[t.host];
        var stays := if b.expected.None? then pin else b.expected.value;
        db == old(db).(bindings := old(db).bindings[t.host := b.(expected := Some(stays))],
                       hosts := old(db).hosts[t.host := old(db).hosts[t.host].(desired := stays.version)])
      ensures !ok ==> db == old(db)
      ensures ok == Permits(old(db), t, PinExpected(pin)) && db == Perform(old(db), t, PinExpected(pin))
    {
      hide Linked, PutRow, MemberReady, DominatorOf;
      OwnedRow(db, t);
      if pin.revision != 1 || pin.version == "" || |pin.version| > 128 { return false; }
      if !Owns(t) || !db.ops[t.op].state.Launching? || !db.hosts[t.host].state.Registering? { return false; }
      if t.host !in db.bindings || db.bindings[t.host].op != t.op { return false; }
      var pinned := if db.bindings[t.host].expected.Some? then db.bindings[t.host].expected.value else pin;
      if pinned.revision != 1 || pinned.version == "" { return false; }
      PutBinding(db, t.op, db.bindings[t.host].(expected := Some(pinned)), db.hosts[t.host].(desired := pinned.version));
      db := db.(bindings := db.bindings[t.host := db.bindings[t.host].(expected := Some(pinned))]);
      db := db.(hosts := db.hosts[t.host := db.hosts[t.host].(desired := pinned.version)]);
      return true;
    }

    method PrepareProvisionRelease(t: Token, version: string) returns (ok: bool)
      requires Linked(db)
      modifies this
      ensures ok <==>
        Fenced(old(db), t) && old(db).ops[t.op].state.Launching? && old(db).hosts[t.host].state.Converging? &&
        Approves(old(db), old(db).ops[t.op].group) &&
        version != "" && old(db).hosts[t.host].desired == version && t.host in old(db).bindings && Shows(old(db).bindings[t.host], t.op, version)
      ensures ok ==> db == old(db).(bindings := old(db).bindings[t.host := old(db).bindings[t.host].(released := true)])
      ensures !ok ==> db == old(db)
      ensures ok == Permits(old(db), t, PrepareRelease(version)) && db == Perform(old(db), t, PrepareRelease(version))
    {
      hide Linked, PutRow;
      OwnedRow(db, t);
      if !Owns(t) || !db.ops[t.op].state.Launching? || !db.hosts[t.host].state.Converging? || !MemberReady(db, db.ops[t.op].group) { return false; }
      if version == "" || db.hosts[t.host].desired != version || t.host !in db.bindings { return false; }
      var b := db.bindings[t.host];
      if b.op != t.op || b.expected.None? || b.expected.value.version != version || b.expected.value.revision != 1 { return false; }
      PutBinding(db, t.op, b.(released := true), db.hosts[t.host]);
      db := db.(bindings := db.bindings[t.host := b.(released := true)]);
      return true;
    }

    // FinalizeProvision when nothing else runs: the checks that lock the rows, the release, and the
    // two updates that commit READY.
    method FinalizeProvision(t: Token, version: string, released: bool) returns (ok: bool)
      requires Sound(db)
      modifies this
      ensures Sound(db)
      ensures ok <==>
        released && Fenced(old(db), t) && old(db).ops[t.op].state.Launching? && old(db).ops[t.op].lease.value.until > old(db).clock + 1000 &&
        old(db).hosts[t.host].state.Converging? && version != "" && old(db).hosts[t.host].desired == version &&
        t.host in old(db).bindings && old(db).bindings[t.host].released && Shows(old(db).bindings[t.host], t.op, version) &&
        old(db).ops[t.op].group in old(db).groups &&
        var g := old(db).groups[old(db).ops[t.op].group];
        Place(g.cluster, g.zone) in old(db).members && old(db).members[Place(g.cluster, g.zone)] == Membership(true, true) &&
        g.zone in old(db).zones && old(db).zones[g.zone].ready && old(db).zones[g.zone].enabled &&
        g.cluster in old(db).clusters && old(db).clusters[g.cluster]
      ensures ok ==>
        var h, op := old(db).hosts[t.host], old(db).ops[t.op];
        db == old(db).(hosts := old(db).hosts[t.host := h.(state := Ready, observed := h.desired)],
                       ops := old(db).ops[t.op := op.(state := Succeeded, lease := None)])
      ensures ok == (released && HasRow(old(db), t.op) && OpensFinalize(RowOf(old(db), t.op), t, version, SiteOf(old(db), t, Finalize)))
      ensures db == if ok then Perform(old(db), t, Finalize) else old(db)
    {
      hide Sound, Linked, PutRow;
      SoundLinked(db);
      OwnedRow(db, t);
      if !Owns(t) || !db.ops[t.op].state.Launching? || db.ops[t.op].lease.value.until <= db.clock + 1000 { return false; }
      if !db.hosts[t.host].state.Converging? || !MemberReady(db, db.ops[t.op].group) || !TopologyReady(db, db.ops[t.op].group) { return false; }
      if t.host !in db.bindings || version == "" || db.hosts[t.host].desired != version { return false; }
      var b := db.bindings[t.host];
      if b.op != t.op || !b.released || b.expected.None? || b.expected.value.version != version || b.expected.value.revision != 1 { return false; }
      if !released { return false; }
      WriteKeepsSound(db, t, Finalize);
      var h := db.hosts[t.host].(state := Ready, observed := db.hosts[t.host].desired);
      var op := db.ops[t.op].(state := Succeeded, lease := None);
      PutBoth(db, t.op, op, h);
      db := db.(hosts := db.hosts[t.host := h]);
      db := db.(ops := db.ops[t.op := op]);
      return true;
    }
  }

  // An owned operation has its record, named after itself.
  lemma OwnedRow(db: Db, t: Token)
    requires Linked(db)
    ensures t.op in db.ops && db.ops[t.op].kind.Provision? ==> HasRow(db, t.op) && db.ops[t.op].host == t.op
  {
    if t.op in db.ops { assert LinkedOp(db, t.op); }
    if t.op in db.hosts { assert LinkedHost(db, t.op); }
  }

  // The state write, by its columns.
  lemma StateMoves(db: Db, t: Token, expected: HostState, next: HostState)
    requires Linked(db)
    ensures Fenced(db, t) ==> t.host in db.hosts
    ensures Permits(db, t, SetState(expected, next)) <==>
      Handoff(expected, next) && Fenced(db, t) && db.ops[t.op].state.Launching? && db.hosts[t.host].state == expected
    ensures Permits(db, t, SetState(expected, next)) ==>
      Perform(db, t, SetState(expected, next)) == db.(hosts := db.hosts[t.host := db.hosts[t.host].(state := next)])
    ensures !Permits(db, t, SetState(expected, next)) ==> Perform(db, t, SetState(expected, next)) == db
  {
    hide Linked, PutRow, MemberReady, DominatorOf, TopologyReady, Handoff;
    OwnedRow(db, t);
    if Permits(db, t, SetState(expected, next)) { PutHost(db, t.op, db.hosts[t.host].(state := next), db.resv[t.host]); }
  }

  // Writing back a record of which only some parts changed.
  lemma PutBoth(db: Db, o: Id, op: Op, h: Capacity.Host)
    requires HasRow(db, o)
    ensures PutRow(db, o, RowOf(db, o).(op := op, host := h)) == db.(ops := db.ops[o := op], hosts := db.hosts[db.ops[o].host := h])
  {
    var k := db.ops[o].host;
    assert db.resv[k := db.resv[k]] == db.resv;
    if k in db.bindings { assert db.bindings[k := db.bindings[k]] == db.bindings; }
  }

  lemma PutOp(db: Db, o: Id, op: Op)
    requires HasRow(db, o)
    ensures PutRow(db, o, RowOf(db, o).(op := op)) == db.(ops := db.ops[o := op])
  {
    PutBoth(db, o, op, db.hosts[db.ops[o].host]);
    assert db.hosts[db.ops[o].host := db.hosts[db.ops[o].host]] == db.hosts;
  }

  lemma PutHost(db: Db, o: Id, h: Capacity.Host, c: Reservation)
    requires HasRow(db, o)
    ensures PutRow(db, o, RowOf(db, o).(host := h, resv := c)) ==
      db.(hosts := db.hosts[db.ops[o].host := h], resv := db.resv[db.ops[o].host := c])
    ensures c == db.resv[db.ops[o].host] ==> db.resv[db.ops[o].host := c] == db.resv
  {
    var k := db.ops[o].host;
    assert db.ops[o := db.ops[o]] == db.ops;
    if k in db.bindings { assert db.bindings[k := db.bindings[k]] == db.bindings; }
  }

  lemma PutBinding(db: Db, o: Id, b: Binding, h: Capacity.Host)
    requires HasRow(db, o)
    ensures PutRow(db, o, RowOf(db, o).(binding := Some(b), host := h)) ==
      db.(bindings := db.bindings[db.ops[o].host := b], hosts := db.hosts[db.ops[o].host := h])
    ensures h == db.hosts[db.ops[o].host] ==> db.hosts[db.ops[o].host := h] == db.hosts
    ensures db.ops[o].host in db.bindings && b == db.bindings[db.ops[o].host] ==> db.bindings[db.ops[o].host := b] == db.bindings
  {
    var k := db.ops[o].host;
    assert db.ops[o := db.ops[o]] == db.ops;
    assert db.resv[k := db.resv[k]] == db.resv;
  }

  method Minimum(s: set<Id>) returns (m: Id)
    requires s != {}
    ensures m in s && forall x :: x in s ==> m <= x
  {
    m :| m in s;
    var rest := s - {m};
    while rest != {}
      invariant rest <= s && m in s
      invariant forall x :: x in s && x !in rest ==> m <= x
      decreases |rest|
    {
      var x :| x in rest;
      rest := rest - {x};
      if x < m { m := x; }
    }
  }

  lemma RemovalInserted(db: Db, gid: string, g: Group, removal: Removal)
    ensures AddRemoval(db, gid, g, removal) ==
      db.(next := db.next + 1, removals := db.removals[db.next := removal],
          ops := db.ops[db.next := Op(RemoveNode, g.zone, gid, removal.host, removal.revision, "", Pending, None, 0, "")])
  {
  }

  lemma PassedEarly(db: Db, req: CapacityRequest, obs: Observed)
    requires Refusal(db, req, obs).None?
    ensures Early(db, req, obs.enabled).None? && req.group in db.groups
  {
    hide Late;
  }

  lemma NewestWithin(s: set<Id>, k: nat)
    ensures Newest(s, k) <= s
  {
  }

  lemma NewestNone(s: set<Id>)
    ensures Newest(s, 0) == {}
  {
  }

  lemma NoRows(rows: seq<Id>)
    ensures Rows(rows[..0]) == {}
  {
  }

  lemma NextRow(rows: seq<Id>, i: nat)
    requires Descending(rows) && i < |rows|
    ensures Rows(rows[..i + 1]) == Rows(rows[..i]) + {rows[i]} && rows[i] !in Rows(rows[..i]) && Rows(rows[..i + 1]) <= Rows(rows)
  {
    assert rows[..i + 1] == rows[..i] + [rows[i]];
  }
}
