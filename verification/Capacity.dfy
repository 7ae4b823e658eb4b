// The durable tables of the capacity control plane (internal/capacity/schema.sql)
// and the fenced writes a provisioning controller makes to them
// (internal/capacity/store.go, internal/capacity/provision_handoff.go).
//
// Identifiers come from one increasing counter. uuid.NewString never repeats and
// rows are stamped with an advancing clock, so creation order is identifier order;
// one number names a host and the provision operation created with it.

module Capacity {
  import opened Options

  type Id = nat

  // CHECK(vcpu > 0) and CHECK(memory_mib > 0)
  type Positive = x: int | 0 < x witness 1

  datatype Resources = Resources(vcpu: int, memory: int, nodes: int)

  datatype Pool = Pool(limit: Resources, enabled: bool)

  datatype Group = Group(
    cluster: string, zone: string, pool: string, min: int, max: int, template: string,
    vcpu: Positive, memory: Positive, active: bool, target: int, revision: int)

  datatype Place = Place(cluster: string, zone: string)
  datatype Membership = Membership(ready: bool, approved: bool)
  // provider and cell, the cloud and its name for the zone, are never rewritten.
  datatype Zone = Zone(ready: bool, enabled: bool, provider: string, cell: string)

  datatype HostState =
    | Requested | Provisioning | Booting | Registering | Converging | Ready
    | Draining | Terminating | Terminated | Failed | Unhealthy

  datatype OpKind = Provision | RemoveNode
  datatype OpState = Pending | Leased | Launching | Succeeded | Cancelled
  // lease_owner and lease_until are null together (a CHECK of the operations table).
  datatype Lease = Lease(owner: string, until: int)
  datatype Op = Op(
    kind: OpKind, zone: string, group: string, host: Id, revision: int, template: string,
    state: OpState, lease: Option<Lease>, fence: int, error: string)

  datatype Host = Host(
    group: string, op: Id, state: HostState, provider: string, node: string,
    excess: bool, desired: string, observed: string)

  datatype Credit = Reserved | Committed | Released
  datatype Reservation = Reservation(group: string, vcpu: Positive, memory: Positive, state: Credit)

  // A revisioned expected state; content stands for its services and packages.
  datatype Expected = Expected(revision: int, version: string, content: string)
  // name is the host whose identifier the node name was derived from.
  datatype NodeIdentity = NodeIdentity(name: Id, uid: string, provider: string, contract: string)
  datatype Binding = Binding(op: Id, node: NodeIdentity, expected: Option<Expected>, released: bool)

  datatype CapacityRequest = CapacityRequest(
    group: string, request: string, cluster: string, expected: int, desired: int, template: string)
  datatype RequestKey = RequestKey(group: string, request: string)
  datatype StoredRequest = StoredRequest(req: CapacityRequest, result: int)

  datatype RemovalNode = RemovalNode(host: Id, name: string, provider: string)
  datatype RemovalRequest = RemovalRequest(group: string, request: string, expected: int, nodes: seq<RemovalNode>)
  // node_removal_operations joined with its remove_node operation; batch is the
  // handler request kept in the operation's immutable parameters.
  datatype Removal = Removal(group: string, host: Id, preserve: bool, revision: int, batch: Option<RemovalRequest>)

  datatype Db = Db(
    clock: int,
    next: Id,
    pools: map<string, Pool>,
    groups: map<string, Group>,
    members: map<Place, Membership>,
    zones: map<string, Zone>,
    clusters: map<string, bool>,
    dominators: map<string, string>,
    ops: map<Id, Op>,
    hosts: map<Id, Host>,
    resv: map<Id, Reservation>,
    bindings: map<Id, Binding>,
    requests: map<RequestKey, StoredRequest>,
    removals: map<Id, Removal>)

  const EMPTY: Db := Db(0, 0, map[], map[], map[], map[], map[], map[], map[], map[], map[], map[], map[], map[])

  // ---------- One provisioning record: an operation joined with its host ----------

  datatype Row = Row(op: Op, host: Host, resv: Reservation, binding: Option<Binding>)

  predicate HasRow(db: Db, o: Id) {
    o in db.ops && db.ops[o].kind.Provision? && db.ops[o].host in db.hosts && db.ops[o].host in db.resv
  }

  function RowOf(db: Db, o: Id): Row
    requires HasRow(db, o)
  {
    var h := db.ops[o].host;
    Row(db.ops[o], db.hosts[h], db.resv[h], if h in db.bindings then Some(db.bindings[h]) else None)
  }

  // Write one record back to its four tables.
  function PutRow(db: Db, o: Id, r: Row): Db
    requires HasRow(db, o)
  {
    var h := db.ops[o].host;
    db.(ops := db.ops[o := r.op],
        hosts := db.hosts[h := r.host],
        resv := db.resv[h := r.resv],
        bindings := if r.binding.Some? then db.bindings[h := r.binding.value] else db.bindings)
  }

  // ---------- Authorization ----------

  predicate MemberReady(db: Db, group: string) {
    group in db.groups &&
    var p := Place(db.groups[group].cluster, db.groups[group].zone);
    p in db.members && db.members[p].ready && db.members[p].approved
  }

  predicate TopologyReady(db: Db, group: string) {
    group in db.groups &&
    db.groups[group].zone in db.zones && db.zones[db.groups[group].zone].ready && db.zones[db.groups[group].zone].enabled &&
    db.groups[group].cluster in db.clusters && db.clusters[db.groups[group].cluster]
  }

  predicate DominatorOf(db: Db, group: string, owner: string) {
    group in db.groups && db.groups[group].zone in db.dominators && db.dominators[db.groups[group].zone] == owner
  }

  // The capacity columns that gate admission: group, pool, zone, cluster and membership.
  predicate Enabled(db: Db, group: string) {
    group in db.groups && db.groups[group].active &&
    db.groups[group].pool in db.pools && db.pools[db.groups[group].pool].enabled &&
    TopologyReady(db, group) && MemberReady(db, group)
  }

  // ---------- Leases and fences ----------

  const MIN_LEASE := 1
  const MAX_LEASE := 86_400_000

  // What a controller keeps from a claim and presents with every later write.
  datatype Token = Token(op: Id, host: Id, owner: string, fence: int)

  predicate Handed(s: HostState) {
    s.Booting? || s.Registering? || s.Converging?
  }

  // pending work, or leased work whose lease has run out or was given back
  predicate Free(op: Op, now: int) {
    op.state.Pending? ||
    ((op.state.Leased? || op.state.Launching?) && (op.lease.None? || op.lease.value.until <= now))
  }

  predicate Claimable(db: Db, o: Id, owner: string) {
    HasRow(db, o) && Free(db.ops[o], db.clock) &&
    MemberReady(db, db.ops[o].group) && DominatorOf(db, db.ops[o].group, owner) &&
    db.groups[db.ops[o].group].zone == db.ops[o].zone
  }

  function ClaimedRow(r: Row, owner: string, until: int): Row {
    r.(op := r.op.(state := if Handed(r.host.state) then Launching else Leased,
                   lease := Some(Lease(owner, until)),
                   fence := r.op.fence + 1))
  }

  function Claim(db: Db, o: Id, owner: string, duration: int): Db
    requires HasRow(db, o)
  {
    PutRow(db, o, ClaimedRow(RowOf(db, o), owner, db.clock + duration))
  }

  // ---------- Fenced writes ----------

  datatype Write =
    | Renew(duration: int)
    | BeginLaunch
    | RecordLaunch(provider: string, node: string)
    | SetState(expected: HostState, next: HostState)
    | RecordFailure(category: string)
    | ReleaseLease
    | BindNode(identity: NodeIdentity)
    | PinExpected(pin: Expected)
    | PrepareRelease(version: string)
    | Finalize

  // The WHERE clause common to every write: same owner, same fence, unexpired lease.
  predicate Holds(op: Op, t: Token, now: int) {
    op.lease.Some? && op.lease.value.owner == t.owner && op.lease.value.until > now && op.fence == t.fence
  }

  predicate Active(op: Op) {
    op.state.Leased? || op.state.Launching?
  }

  predicate Handoff(expected: HostState, next: HostState) {
    (expected.Requested? && next.Provisioning?) ||
    (expected.Booting? && next.Registering?) ||
    (expected.Registering? && next.Converging?)
  }

  // expected_state->>'version' = v and ->>'revision' = '1' against the host's desired version
  predicate PinnedTo(r: Row, o: Id, v: string) {
    r.binding.Some? && r.binding.value.op == o && r.host.desired == v && v != "" &&
    r.binding.value.expected.Some? && r.binding.value.expected.value.version == v &&
    r.binding.value.expected.value.revision == 1
  }

  function Pinned(r: Row, pin: Expected): Expected {
    if r.binding.Some? && r.binding.value.expected.Some? then r.binding.value.expected.value else pin
  }

  // Facts outside the record that a write's WHERE clause also reads.
  datatype Site = Site(now: int, member: bool, dominator: bool, topology: bool, uidFree: bool)

  function SiteOf(db: Db, t: Token, w: Write): Site
    requires HasRow(db, t.op)
  {
    var g := db.ops[t.op].group;
    Site(db.clock, MemberReady(db, g), DominatorOf(db, g, t.owner), TopologyReady(db, g),
         w.BindNode? ==> forall h :: h in db.bindings && h != t.host ==>
           db.bindings[h].node.uid != w.identity.uid && db.bindings[h].op != t.op)
  }

  predicate RowPermits(r: Row, t: Token, w: Write, s: Site) {
    Holds(r.op, t, s.now) && r.op.host == t.host &&
    match w
    case Renew(d) => MIN_LEASE <= d <= MAX_LEASE && Active(r.op) && s.member && s.dominator
    case BeginLaunch => Active(r.op) && s.member && s.dominator
    case RecordLaunch(p, n) =>
      p != "" && r.op.state.Launching? && (r.host.provider == "" || r.host.provider == p) &&
      (r.host.node == "" || n == "" || r.host.node == n)
    case SetState(e, n) => Handoff(e, n) && r.op.state.Launching? && r.host.state == e
    case RecordFailure(c) => c != "" && |c| <= 80 && Active(r.op)
    case ReleaseLease => Active(r.op)
    case BindNode(n) =>
      n.name == t.host && n.uid != "" && n.provider != "" && |n.contract| == 64 &&
      r.op.state.Launching? && r.host.state.Registering? && s.member && s.uidFree &&
      (r.binding.None? || (r.binding.value.op == t.op && r.binding.value.node == n))
    case PinExpected(e) =>
      e.revision == 1 && e.version != "" && |e.version| <= 128 &&
      r.op.state.Launching? && r.host.state.Registering? &&
      r.binding.Some? && r.binding.value.op == t.op &&
      Pinned(r, e).revision == 1 && Pinned(r, e).version != ""
    case PrepareRelease(v) =>
      r.op.state.Launching? && r.host.state.Converging? && PinnedTo(r, t.op, v) && s.member
    case Finalize => r.host.state.Converging?
  }

  // The SELECT ... FOR UPDATE that opens FinalizeProvision: it demands a second of lease beyond
  // now and locks the operation, host, binding, membership, zone and cluster rows until commit.
  predicate OpensFinalize(r: Row, t: Token, v: string, s: Site) {
    Holds(r.op, t, s.now) && r.op.host == t.host && r.op.state.Launching? &&
    r.op.lease.value.until > s.now + 1000 && r.host.state.Converging? &&
    PinnedTo(r, t.op, v) && r.binding.value.released && s.member && s.topology
  }

  function Effect(r: Row, t: Token, w: Write, s: Site): Row
    requires RowPermits(r, t, w, s)
  {
    match w
    case Renew(d) => r.(op := r.op.(lease := Some(Lease(t.owner, s.now + d))))
    case BeginLaunch => r.(op := r.op.(state := Launching))
    case RecordLaunch(p, n) =>
      r.(host := r.host.(provider := p,
                         node := if n == "" then r.host.node else n,
                         state := if r.host.state.Provisioning? then Booting else r.host.state),
         resv := if r.resv.state.Reserved? then r.resv.(state := Committed) else r.resv)
    case SetState(e, n) => r.(host := r.host.(state := n))
    case RecordFailure(c) => r.(op := r.op.(error := c))
    case ReleaseLease =>
      r.(op := r.op.(state := if Handed(r.host.state) then Launching else Pending, lease := None))
    case BindNode(n) => if r.binding.Some? then r else r.(binding := Some(Binding(t.op, n, None, false)))
    case PinExpected(e) =>
      r.(binding := Some(r.binding.value.(expected := Some(Pinned(r, e)))),
         host := r.host.(desired := Pinned(r, e).version))
    case PrepareRelease(v) => r.(binding := Some(r.binding.value.(released := true)))
    case Finalize =>
      r.(host := r.host.(state := Ready, observed := r.host.desired),
         op := r.op.(state := Succeeded, lease := None))
  }

  predicate Permits(db: Db, t: Token, w: Write) {
    HasRow(db, t.op) && RowPermits(RowOf(db, t.op), t, w, SiteOf(db, t, w))
  }

  // A write either changes exactly its own record or reports ErrFenced/ErrInvalid/
  // ErrConflict and changes nothing.
  function Perform(db: Db, t: Token, w: Write): Db {
    if Permits(db, t, w) then PutRow(db, t.op, Effect(RowOf(db, t.op), t, w, SiteOf(db, t, w))) else db
  }
}
