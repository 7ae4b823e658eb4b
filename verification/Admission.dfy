// Admission transactions: SetTarget (internal/capacity/store.go), the two named-node
// removals (internal/capacity/removals.go, internal/capacity/catalog.go) and topology
// creation. Each function is one committed or rolled-back transaction.

module Admission {
  import opened Options
  import opened Int64
  import opened Counting
  import opened Selection
  import opened Capacity

  datatype Error =
    | Invalid | NotFound | Forbidden | ReplayMismatch | Inactive | TemplateMismatch
    | Conflict | Limit | Fulfilled

  datatype Reply =
    | Accepted(request: string, group: string, target: int, revision: int)
    | Rejected(error: Error)

  // Two values SetTarget reads in statements of their own, without locking the rows
  // they come from: the admission gate, and the number of registered hosts.
  datatype Observed = Observed(enabled: bool, registered: int)

  // ---------- Pool accounting ----------

  const NOTHING := Resources(0, 0, 0)

  function Credits(db: Db, pool: string, h: Id): Resources {
    if h in db.resv && !db.resv[h].state.Released? &&
       db.resv[h].group in db.groups && db.groups[db.resv[h].group].pool == pool
    then Resources(db.resv[h].vcpu, db.resv[h].memory, 1) else NOTHING
  }

  function VcpuOf(db: Db, pool: string): nat -> int { (h: nat) => Credits(db, pool, h).vcpu }
  function MemoryOf(db: Db, pool: string): nat -> int { (h: nat) => Credits(db, pool, h).memory }
  function NodesOf(db: Db, pool: string): nat -> int { (h: nat) => Credits(db, pool, h).nodes }

  function Used(db: Db, pool: string): Resources {
    Resources(Sum(VcpuOf(db, pool), db.next), Sum(MemoryOf(db, pool), db.next), Sum(NodesOf(db, pool), db.next))
  }

  predicate AtMost(a: Resources, b: Resources) {
    a.vcpu <= b.vcpu && a.memory <= b.memory && a.nodes <= b.nodes
  }

  // checkReservations, in int64 arithmetic; used is the row its query returned.
  predicate Fits(g: Group, limit: Resources, used: Resources, nodes: int) {
    nodes <= MAX / g.vcpu && nodes <= MAX / g.memory &&
    Wrap(nodes * g.vcpu) <= Wrap(limit.vcpu - used.vcpu) &&
    Wrap(nodes * g.memory) <= Wrap(limit.memory - used.memory) &&
    nodes <= Wrap(limit.nodes - used.nodes)
  }

  predicate IsRegistered(s: HostState) {
    s.Registering? || s.Converging? || s.Ready? || s.Draining? || s.Unhealthy? || s.Terminating?
  }

  function RegisteredOf(db: Db, group: string): nat -> int {
    (h: nat) => if h in db.hosts && db.hosts[h].group == group && IsRegistered(db.hosts[h].state) then 1 else 0
  }

  // ---------- provisionIntent ----------

  function NewRow(gid: string, g: Group, id: Id, revision: int): Row {
    Row(Op(Provision, g.zone, gid, id, revision, g.template, Pending, None, 0, ""),
        Host(gid, id, Requested, "", "", false, g.template, ""),
        Reservation(gid, g.vcpu, g.memory, Reserved),
        None)
  }

  function AddIntent(db: Db, gid: string, g: Group, revision: int): Db {
    var r := NewRow(gid, g, db.next, revision);
    db.(next := db.next + 1,
        ops := db.ops[db.next := r.op],
        hosts := db.hosts[db.next := r.host],
        resv := db.resv[db.next := r.resv])
  }

  function AddIntents(db: Db, gid: string, g: Group, revision: int, count: nat): Db {
    if count == 0 then db else AddIntent(AddIntents(db, gid, g, revision, count - 1), gid, g, revision)
  }

  // ---------- cancelPending ----------

  predicate IsCancellable(db: Db, gid: string, o: Id) {
    HasRow(db, o) && db.ops[o].group == gid && db.ops[o].state.Pending? && db.ops[o].lease.None? &&
    var s := db.hosts[db.ops[o].host].state;
    s.Requested? || s.Provisioning?
  }

  function Cancellable(db: Db, gid: string): set<Id> {
    set o | o in db.ops && IsCancellable(db, gid, o)
  }

  function CancelledOp(op: Op): Op { op.(state := Cancelled, fence := op.fence + 1) }

  function HostsOf(db: Db, chosen: set<Id>): set<Id>
    requires chosen <= db.ops.Keys
  {
    set o | o in chosen :: db.ops[o].host
  }

  function CancelOps(db: Db, chosen: set<Id>): Db
    requires chosen <= db.ops.Keys
  {
    var gone := HostsOf(db, chosen);
    db.(ops := map o | o in db.ops :: if o in chosen then CancelledOp(db.ops[o]) else db.ops[o],
        hosts := map h | h in db.hosts :: if h in gone then db.hosts[h].(state := Terminated) else db.hosts[h],
        resv := map h | h in db.resv :: if h in gone then db.resv[h].(state := Released) else db.resv[h])
  }

  predicate IsMarkable(db: Db, gid: string, h: Id) {
    h in db.hosts && db.hosts[h].group == gid && !db.hosts[h].excess &&
    (db.hosts[h].state.Requested? || db.hosts[h].state.Provisioning? || db.hosts[h].state.Booting?) &&
    db.hosts[h].op in db.ops && !db.ops[db.hosts[h].op].state.Cancelled?
  }

  function Markable(db: Db, gid: string): set<Id> {
    set h | h in db.hosts && IsMarkable(db, gid, h)
  }

  function MarkExcess(db: Db, chosen: set<Id>): Db {
    db.(hosts := map h | h in db.hosts :: if h in chosen then db.hosts[h].(excess := true) else db.hosts[h])
  }

  // The rows one cancelPending call cancels and marks. Its two statements choose them when
  // they run, which under READ COMMITTED may be earlier than the commit.
  datatype Pick = Pick(cancel: set<Id>, mark: set<Id>)

  predicate PickOk(db: Db, gid: string, count: int, pick: Pick) {
    pick.cancel <= Cancellable(db, gid) && pick.cancel <= db.ops.Keys &&
    pick.mark <= Markable(CancelOps(db, pick.cancel), gid) && |pick.cancel| + |pick.mark| <= count
  }

  function CancelWith(db: Db, pick: Pick): Db
    requires pick.cancel <= db.ops.Keys
  {
    MarkExcess(CancelOps(db, pick.cancel), pick.mark)
  }

  // What the two statements choose when nothing runs between them and the commit.
  ghost function NewestPick(db: Db, gid: string, count: nat): Pick {
    var chosen := Newest(Cancellable(db, gid), count);
    Pick(chosen, Newest(Markable(CancelOps(db, chosen), gid), count - |chosen|))
  }

  // ---------- SetTarget ----------

  // int64 request fields
  predicate TypedRequest(req: CapacityRequest) {
    InRange(req.desired) && InRange(req.expected)
  }

  predicate WellFormedRequest(req: CapacityRequest) {
    req.group != "" && req.request != "" && req.cluster != "" && req.template != "" &&
    req.desired >= 0 && req.expected >= 0
  }

  function KeyOf(req: CapacityRequest): RequestKey { RequestKey(req.group, req.request) }

  // The reply decided before the pool row is locked, if any.
  function Early(db: Db, req: CapacityRequest, enabled: bool): Option<Reply> {
    if !WellFormedRequest(req) then Some(Rejected(Invalid))
    else if req.group !in db.groups then Some(Rejected(NotFound))
    else
      var g := db.groups[req.group];
      if g.cluster != req.cluster then Some(Rejected(Forbidden))
      else if KeyOf(req) in db.requests then
        var previous := db.requests[KeyOf(req)];
        if previous.req != req then Some(Rejected(ReplayMismatch))
        else Some(Accepted(req.request, req.group, req.desired, previous.result))
      else if !enabled then Some(Rejected(Inactive))
      else if g.template != req.template then Some(Rejected(TemplateMismatch))
      else if g.revision != req.expected then Some(Rejected(Conflict))
      else if req.desired < g.min || req.desired > g.max || g.revision == MAX then Some(Rejected(Limit))
      else if g.pool !in db.pools then Some(Rejected(NotFound))
      else None
  }

  function Delta(g: Group, req: CapacityRequest): int { Wrap(req.desired - g.target) }

  // The checks made while both rows are locked.
  function Late(g: Group, limit: Resources, used: Resources, req: CapacityRequest, registered: int): Option<Reply> {
    if Delta(g, req) > 0 && !Fits(g, limit, used, Delta(g, req)) then Some(Rejected(Limit))
    else if Delta(g, req) < 0 && req.desired < registered then Some(Rejected(Fulfilled))
    else None
  }

  function Retarget(db: Db, req: CapacityRequest, g: Group): Db
    requires req.group in db.groups
  {
    db.(requests := db.requests[KeyOf(req) := StoredRequest(req, Wrap(g.revision + 1))],
        groups := db.groups[req.group := db.groups[req.group].(target := req.desired, revision := Wrap(g.revision + 1))])
  }

  // All writes of an admitted request; g is the policy row read under the group lock.
  function Commit(db: Db, req: CapacityRequest, g: Group, pick: Pick): Db
    requires req.group in db.groups && pick.cancel <= db.ops.Keys
  {
    var d := Retarget(db, req, g);
    if Delta(g, req) > 0 then AddIntents(d, req.group, g, Wrap(g.revision + 1), Delta(g, req))
    else if Delta(g, req) < 0 then CancelWith(d, pick)
    else d
  }

  // A pick matters only to a request that lowers the target.
  predicate PickFits(db: Db, req: CapacityRequest, pick: Pick) {
    req.group in db.groups && pick.cancel <= db.ops.Keys &&
    (Delta(db.groups[req.group], req) < 0 ==>
      PickOk(db, req.group, -Delta(db.groups[req.group], req), pick))
  }

  // The reply, or None for a request that is admitted.
  function Refusal(db: Db, req: CapacityRequest, obs: Observed): Option<Reply> {
    var early := Early(db, req, obs.enabled);
    if early.Some? then early else
      var g := db.groups[req.group];
      Late(g, db.pools[g.pool].limit, Used(db, g.pool), req, obs.registered)
  }

  function SetTarget(db: Db, req: CapacityRequest, obs: Observed, pick: Pick): (Db, Reply)
    requires req.group in db.groups ==> PickFits(db, req, pick)
  {
    var refusal := Refusal(db, req, obs);
    if refusal.Some? then (db, refusal.value) else
      var g := db.groups[req.group];
      (Commit(db, req, g, pick), Accepted(req.request, req.group, req.desired, Wrap(g.revision + 1)))
  }

  // ---------- CreateAutoscalerRemovals ----------

  predicate WellFormedNodes(nodes: seq<RemovalNode>) {
    (forall i :: 0 <= i < |nodes| ==> nodes[i].provider != "" && nodes[i].name != "") &&
    (forall i, j :: 0 <= i < j < |nodes| ==> nodes[i].host != nodes[j].host)
  }

  predicate UnderRemoval(db: Db, h: Id) {
    exists i :: i in db.removals && db.removals[i].host == h
  }

  predicate IsReplay(db: Db, req: RemovalRequest, i: Id) {
    i in db.removals && db.removals[i].group == req.group && db.removals[i].batch.Some? &&
    db.removals[i].batch.value.request == req.request
  }

  // Kubernetes names an AWS instance by zone and instance identifier.
  function IdentityIn(z: Zone, provider: string): string {
    if z.provider == "aws" then "aws:///" + z.cell + "/" + provider else provider
  }

  // The host row joined with its group's zone row. RecordLaunch copies the zone's provider to the
  // host together with its provider identifier, and a host is in its group's zone.
  function NodeError(db: Db, gid: string, n: RemovalNode): Option<Error> {
    if n.host !in db.hosts || db.hosts[n.host].group !in db.groups || db.groups[db.hosts[n.host].group].zone !in db.zones
    then Some(NotFound)
    else
      var h := db.hosts[n.host];
      var z := db.zones[db.groups[h.group].zone];
      if h.group != gid || h.provider == "" || n.provider != IdentityIn(z, h.provider) then Some(Forbidden)
      else if h.state.Terminated? || h.state.Terminating? || h.state.Failed? then Some(Fulfilled)
      else if UnderRemoval(db, n.host) then Some(Conflict)
      else None
  }

  function NodesError(db: Db, gid: string, nodes: seq<RemovalNode>): Option<Error> {
    if nodes == [] then None
    else if NodeError(db, gid, nodes[0]).Some? then NodeError(db, gid, nodes[0])
    else NodesError(db, gid, nodes[1..])
  }

  function AddRemoval(db: Db, gid: string, g: Group, removal: Removal): Db {
    db.(next := db.next + 1,
        ops := db.ops[db.next := Op(RemoveNode, g.zone, gid, removal.host, removal.revision, "", Pending, None, 0, "")],
        removals := db.removals[db.next := removal])
  }

  function AddRemovals(db: Db, g: Group, req: RemovalRequest, revision: int, count: nat): Db
    requires count <= |req.nodes|
  {
    if count == 0 then db else
      AddRemoval(AddRemovals(db, g, req, revision, count - 1), req.group, g,
                 Removal(req.group, req.nodes[count - 1].host, false, revision, Some(req)))
  }

  function Lower(db: Db, gid: string, count: int, revision: int): Db
    requires gid in db.groups
  {
    db.(groups := db.groups[gid := db.groups[gid].(target := db.groups[gid].target - count, revision := revision)])
  }

  // None is success.
  function RemoveBatch(db: Db, cluster: string, req: RemovalRequest): (Db, Option<Error>) {
    if cluster == "" || req.group == "" || req.request == "" || req.expected < 0 || req.nodes == [] ||
       !WellFormedNodes(req.nodes) then (db, Some(Invalid))
    else if req.group !in db.groups then (db, Some(NotFound))
    else
      var g := db.groups[req.group];
      if g.cluster != cluster then (db, Some(Forbidden))
      else if exists i :: i in db.removals && IsReplay(db, req, i) then
        (db, if exists i :: i in db.removals && IsReplay(db, req, i) && db.removals[i].batch.value != req then Some(ReplayMismatch) else None)
      else if g.revision != req.expected then (db, Some(Conflict))
      else if Wrap(g.target - |req.nodes|) < g.min || g.revision == MAX then (db, Some(Limit))
      else if NodesError(db, req.group, req.nodes).Some? then (db, NodesError(db, req.group, req.nodes))
      else
        var revision := Wrap(g.revision + 1);
        (AddRemovals(Lower(db, req.group, |req.nodes|, revision), g, req, revision, |req.nodes|), None)
  }

  // ---------- CreateRemoval ----------

  datatype NamedRemoval = NamedRemoval(group: string, host: Id, name: string, provider: string, preserve: bool)

  // The revision is incremented without a guard; CHECK(target_revision >= 0) rejects the
  // wrapped value, and the partial unique index rejects a host already being removed.
  function RemoveOne(db: Db, cluster: string, expected: int, r: NamedRemoval): (Db, Option<Error>) {
    if cluster == "" || r.group == "" || r.name == "" || r.provider == "" then (db, Some(Invalid))
    else if r.group !in db.groups then (db, Some(NotFound))
    else
      var g := db.groups[r.group];
      if g.cluster != cluster then (db, Some(Forbidden))
      else if g.revision != expected then (db, Some(Conflict))
      else if r.host !in db.hosts || db.hosts[r.host].state.Terminated? || db.hosts[r.host].state.Terminating? ||
              db.hosts[r.host].state.Failed? then (db, Some(NotFound))
      else if db.hosts[r.host].group != r.group || db.hosts[r.host].provider != r.provider then (db, Some(Forbidden))
      else if !r.preserve && g.target <= g.min then (db, Some(Limit))
      else
        var revision := if r.preserve then g.revision else Wrap(g.revision + 1);
        if revision < 0 || UnderRemoval(db, r.host) then (db, Some(Conflict))
        else
          var d := if r.preserve then db else Lower(db, r.group, 1, revision);
          (AddRemoval(d, r.group, g, Removal(r.group, r.host, r.preserve, revision, None)), None)
  }

  // ---------- Topology ----------

  // createPool: an existing identifier is never changed.
  function CreatePool(db: Db, id: string, limit: Resources): Db {
    if id == "" || limit.vcpu < 0 || limit.memory < 0 || limit.nodes < 0 ||
       !InRange(limit.vcpu) || !InRange(limit.memory) || !InRange(limit.nodes) || id in db.pools then db
    else db.(pools := db.pools[id := Pool(limit, true)])
  }

  // createGroup: target and revision start at zero, and the table's
  // CHECK(target_nodes BETWEEN min_nodes AND max_nodes) then admits only min_nodes = 0.
  function CreateGroup(db: Db, id: string, g: Group): Db {
    if id == "" || id in db.groups || g.pool !in db.pools || g.template == "" ||
       g.min != 0 || g.max < 0 || !InRange(g.max) || !InRange(g.vcpu) || !InRange(g.memory) then db
    else db.(groups := db.groups[id := g.(target := 0, revision := 0, active := true)])
  }

  // UpdateNodeGroupScheduling: only the template view changes.
  function UpdateTemplate(db: Db, id: string, expected: string, revision: string): Db {
    if id !in db.groups || revision == "" || db.groups[id].template != expected then db
    else db.(groups := db.groups[id := db.groups[id].(template := revision)])
  }
}
