// Where recorded identities come from: in every run the provider and Node identifiers of a host, its
// bound Node and its pinned expected state are what the executor answered to a controller of that
// host's own operation.

module Provenance {
  import Int64
  import opened Options
  import opened Capacity
  import opened Admission
  import opened Coupling
  import opened AdmissionSound
  import opened Progress
  import opened Protocol
  import opened Safety
  import opened Guarantees
  import opened Guard

  // The controller is waiting for such an answer.
  predicate Asks(pc: Pc, out: Outcome) {
    (out.Launched? && pc.Launch?) || (out.JoinedAs? && pc.AtRegistering?) || (out.Resolved? && pc.Bound?)
  }

  ghost function Answered(w: World, e: Event): set<(Id, Outcome)> {
    if e.Return? && e.worker in w.workers && Asks(w.workers[e.worker], e.outcome) then {(w.workers[e.worker].t.op, e.outcome)} else {}
  }

  // The answers given in a run, each with the operation it was given for.
  ghost function Heard(es: seq<Event>): set<(Id, Outcome)> {
    if es == [] then {} else Heard(es[..|es| - 1]) + Answered(Run(START, es[..|es| - 1]), es[|es| - 1])
  }

  // Each of them is an event of the run, at a point where a controller of that operation waited.
  lemma {:induction false} HeardInRun(es: seq<Event>, o: Id, out: Outcome) returns (i: nat)
    requires (o, out) in Heard(es)
    ensures i < |es| && es[i].Return? && es[i].outcome == out
    ensures var w := Run(START, es[..i]); es[i].worker in w.workers && w.workers[es[i].worker].t.op == o && Asks(w.workers[es[i].worker], out)
  {
    hide Run, Asks;
    var before := es[..|es| - 1];
    if (o, out) in Heard(before) {
      i := HeardInRun(before, o, out);
      assert before[..i] == es[..i];
    } else {
      i := |es| - 1;
    }
  }

  ghost predicate HostTraced(h: Id, host: Host, heard: set<(Id, Outcome)>) {
    (host.provider == "" || exists n :: (h, Launched(host.provider, n)) in heard) &&
    (host.node == "" || exists p :: (h, Launched(p, host.node)) in heard)
  }

  ghost predicate BindingTraced(h: Id, b: Binding, heard: set<(Id, Outcome)>) {
    (h, JoinedAs(b.node)) in heard && (b.expected.Some? ==> (h, Resolved(b.expected.value)) in heard)
  }

  ghost predicate PcTraced(pc: Pc, heard: set<(Id, Outcome)>) {
    match pc
    case Allocated(t, p, n) => (t.op, Launched(p, n)) in heard
    case Joined(t, n) => (t.op, JoinedAs(n)) in heard
    case Pinning(t, e) => (t.op, Resolved(e)) in heard
    case _ => true
  }

  ghost predicate Traced(w: World, heard: set<(Id, Outcome)>) {
    (forall h :: h in w.db.hosts ==> HostTraced(h, w.db.hosts[h], heard)) &&
    (forall h :: h in w.db.bindings ==> BindingTraced(h, w.db.bindings[h], heard)) &&
    (forall k :: k in w.workers ==> PcTraced(w.workers[k], heard))
  }

  // ---------- What each event leaves alone ----------

  lemma ReturnTraced(pc: Pc, out: Outcome, heard: set<(Id, Outcome)>)
    requires PcTraced(pc, heard)
    ensures Returned(pc, out).Some? ==> PcTraced(Returned(pc, out).value, heard + if Asks(pc, out) then {(pc.t.op, out)} else {})
  {
  }

  lemma AfterTraced(pc: Pc, heard: set<(Id, Outcome)>)
    ensures After(pc).Some? ==> PcTraced(After(pc).value, heard)
    ensures Refused(pc).Some? ==> PcTraced(Refused(pc).value, heard)
  {
  }

  lemma HeardGrows(h: Id, host: Host, heard: set<(Id, Outcome)>, more: set<(Id, Outcome)>)
    requires HostTraced(h, host, heard)
    ensures HostTraced(h, host, heard + more)
  {
    if host.provider != "" {
      var n :| (h, Launched(host.provider, n)) in heard;
      assert (h, Launched(host.provider, n)) in heard + more;
    }
    if host.node != "" {
      var p :| (h, Launched(p, host.node)) in heard;
      assert (h, Launched(p, host.node)) in heard + more;
    }
  }

  // A write records only what its controller was told.
  lemma EffectTraced(pc: Pc, r: Row, s: Site, heard: set<(Id, Outcome)>)
    requires WriteAt(pc).Some? && pc.t.host == pc.t.op && RowPermits(r, pc.t, WriteAt(pc).value, s) && PcTraced(pc, heard)
    requires HostTraced(pc.t.op, r.host, heard) && (r.binding.Some? ==> BindingTraced(pc.t.op, r.binding.value, heard))
    ensures var r' := Effect(r, pc.t, WriteAt(pc).value, s);
      HostTraced(pc.t.op, r'.host, heard) && (r'.binding.Some? ==> BindingTraced(pc.t.op, r'.binding.value, heard))
  {
    if pc.Allocated? {
      var r' := Effect(r, pc.t, WriteAt(pc).value, s);
      assert (pc.t.op, Launched(pc.provider, pc.node)) in heard;
      assert r'.host.provider == pc.provider && (r'.host.node == pc.node || r'.host.node == r.host.node);
    }
  }

  lemma WriteTraced(db: Db, pc: Pc, heard: set<(Id, Outcome)>)
    requires Sound(db) && WorkerOk(db, pc) && WriteAt(pc).Some? && Permits(db, pc.t, WriteAt(pc).value) && PcTraced(pc, heard)
    requires forall h :: h in db.hosts ==> HostTraced(h, db.hosts[h], heard)
    requires forall h :: h in db.bindings ==> BindingTraced(h, db.bindings[h], heard)
    ensures var d := Perform(db, pc.t, WriteAt(pc).value);
      (forall h :: h in d.hosts ==> HostTraced(h, d.hosts[h], heard)) && (forall h :: h in d.bindings ==> BindingTraced(h, d.bindings[h], heard))
  {
    hide Sound, Stands, Secured, RowPermits, Effect, WriteAt, HostTraced, BindingTraced, PcTraced, SiteOf;
    HostOfOp(db, pc.t.op);
    var r, s := RowOf(db, pc.t.op), SiteOf(db, pc.t, WriteAt(pc).value);
    EffectTraced(pc, r, s, heard);
  }

  lemma IssueTraced(w: World, k: nat, heard: set<(Id, Outcome)>)
    requires Safe(w) && Traced(w, heard)
    ensures Traced(ApplyIssue(w, k), heard)
  {
    hide Sound, WriteAhead, WorkerOk, Permits, Perform, WriteAt, HostTraced, BindingTraced, PcTraced, LockedByOther, After, Refused;
    if k in w.workers && WriteAt(w.workers[k]).Some? {
      AfterTraced(w.workers[k], heard);
      if Permits(w.db, w.workers[k].t, WriteAt(w.workers[k]).value) { WriteTraced(w.db, w.workers[k], heard); }
    }
  }

  lemma CancelIdentities(db: Db, pick: Pick, h: Id)
    requires pick.cancel <= db.ops.Keys && h in db.hosts
    ensures var d := CancelWith(db, pick);
      h in d.hosts && d.hosts[h].provider == db.hosts[h].provider && d.hosts[h].node == db.hosts[h].node
    ensures CancelWith(db, pick).hosts.Keys == db.hosts.Keys && CancelWith(db, pick).bindings == db.bindings
  {
  }

  lemma {:induction false} IntentIdentities(db: Db, gid: string, g: Group, revision: int, count: nat, h: Id)
    ensures var d := AddIntents(db, gid, g, revision, count);
      d.bindings == db.bindings && db.next <= d.next &&
      (h in d.hosts ==> (h in db.hosts && d.hosts[h] == db.hosts[h]) || (d.hosts[h].provider == "" && d.hosts[h].node == ""))
  {
    if count > 0 { IntentIdentities(db, gid, g, revision, count - 1, h); }
  }

  lemma AdmitIdentities(w: World, req: CapacityRequest, obs: Observed, pick: Pick, h: Id)
    ensures var d := ApplyAdmit(w, req, obs, pick).db;
      d.bindings == w.db.bindings &&
      (h in d.hosts ==>
        (h in w.db.hosts && d.hosts[h].provider == w.db.hosts[h].provider && d.hosts[h].node == w.db.hosts[h].node) ||
        (d.hosts[h].provider == "" && d.hosts[h].node == ""))
  {
    hide AddIntents, CancelWith, PickOk, Refusal, Cancellable, CancelOps, Markable;
    if Admits(w.db, req, obs, pick) {
      var g := w.db.groups[req.group];
      var d := Retarget(w.db, req, g);
      if Delta(g, req) > 0 { IntentIdentities(d, req.group, g, Int64.Wrap(g.revision + 1), Delta(g, req), h); }
      if h in d.hosts { CancelIdentities(d, pick, h); } else { CancelKeys(d, pick); }
    }
  }

  lemma CancelKeys(db: Db, pick: Pick)
    requires pick.cancel <= db.ops.Keys
    ensures CancelWith(db, pick).hosts.Keys == db.hosts.Keys && CancelWith(db, pick).bindings == db.bindings
  {
  }

  lemma AdmitTraced(w: World, e: Event, heard: set<(Id, Outcome)>)
    requires Traced(w, heard) && e.Admit?
    ensures Traced(Apply(w, e), heard)
  {
    hide ApplyAdmit, BindingTraced, PcTraced;
    var d := Apply(w, e).db;
    AdmitIdentities(w, e.req, e.obs, e.pick, 0);
    AdmitKeepsWorkers(w, e.req, e.obs, e.pick);
    forall h | h in d.hosts ensures HostTraced(h, d.hosts[h], heard) { AdmitIdentities(w, e.req, e.obs, e.pick, h); }
  }

  lemma AdmitKeepsWorkers(w: World, req: CapacityRequest, obs: Observed, pick: Pick)
    ensures ApplyAdmit(w, req, obs, pick).workers == w.workers
  {
    hide Admits, SetTarget;
  }

  // Every other event leaves hosts and bindings alone and puts no controller where it would hold an answer.
  lemma LeaseBindings(w: World, e: Event)
    requires e.Take? || e.Extend?
    ensures Apply(w, e).db.bindings == w.db.bindings
  {
    hide Permits, Claimable, Locked;
    match e {
      case Extend(k, d) =>
        if k in w.workers && Permits(w.db, w.workers[k].t, Renew(d)) { PermitsLive(w.db, w.workers[k].t, Renew(d)); }
      case Take(k, o, owner, d) =>
        if Claimable(w.db, o, owner) { ClaimableRow(w.db, o, owner); }
    }
  }

  lemma RemovalBindings(w: World, e: Event)
    requires e.RemoveMany? || e.RemoveNamed?
    ensures Apply(w, e).db.bindings == w.db.bindings && Apply(w, e).workers == w.workers
  {
    hide NodesError, WellFormedNodes, IsReplay, AddRemovals, UnderRemoval;
    match e {
      case RemoveMany(cluster, req) =>
        if Apply(w, e).db != w.db {
          var g := w.db.groups[req.group];
          RemovalsFrame(Lower(w.db, req.group, |req.nodes|, Int64.Wrap(g.revision + 1)), g, req, Int64.Wrap(g.revision + 1), |req.nodes|);
        }
      case RemoveNamed(_, _, _) =>
    }
  }

  lemma CatalogBindings(w: World, e: Event)
    requires e.Tick? || e.Topology? || e.NewPool? || e.NewGroup? || e.NewTemplate?
    ensures Apply(w, e).db.bindings == w.db.bindings && Apply(w, e).workers == w.workers
  {
    hide TopologyFree;
  }

  lemma BindingsKept(w: World, e: Event)
    requires !e.Issue? && !e.Admit?
    ensures Apply(w, e).db.bindings == w.db.bindings
  {
    hide Apply;
    match e {
      case Take(_, _, _, _) => LeaseBindings(w, e);
      case Extend(_, _) => LeaseBindings(w, e);
      case RemoveMany(_, _) => RemovalBindings(w, e);
      case RemoveNamed(_, _, _) => RemovalBindings(w, e);
      case Tick(_) => CatalogBindings(w, e);
      case Topology(_, _, _, _) => CatalogBindings(w, e);
      case NewPool(_, _) => CatalogBindings(w, e);
      case NewGroup(_, _) => CatalogBindings(w, e);
      case NewTemplate(_, _, _) => CatalogBindings(w, e);
      case _ => MovesKeepTables(w, e);
    }
  }

  lemma MovedTraced(w: World, e: Event, heard: set<(Id, Outcome)>, k: nat)
    requires (forall j :: j in w.workers ==> PcTraced(w.workers[j], heard)) && !e.Issue? && !e.Admit? && k in Apply(w, e).workers
    requires e.Take? || e.ReadHost? || e.Open? || e.Lift? || e.Confirm? || e.Crash? || e.Extend? || e.Land? || e.Return?
    ensures PcTraced(Apply(w, e).workers[k], heard + Answered(w, e))
  {
    hide Claimable, Locked, Claim, OpensFinalize, Perform, Returned, Asks;
    if e.Return? && e.worker in w.workers { ReturnTraced(w.workers[e.worker], e.outcome, heard); }
  }

  lemma WorkersTraced(w: World, e: Event, heard: set<(Id, Outcome)>, k: nat)
    requires (forall j :: j in w.workers ==> PcTraced(w.workers[j], heard)) && !e.Issue? && !e.Admit? && k in Apply(w, e).workers
    ensures PcTraced(Apply(w, e).workers[k], heard + Answered(w, e))
  {
    hide Apply, Answered;
    match e {
      case RemoveMany(_, _) => RemovalBindings(w, e);
      case RemoveNamed(_, _, _) => RemovalBindings(w, e);
      case Tick(_) => CatalogBindings(w, e);
      case Topology(_, _, _, _) => CatalogBindings(w, e);
      case NewPool(_, _) => CatalogBindings(w, e);
      case NewGroup(_, _) => CatalogBindings(w, e);
      case NewTemplate(_, _, _) => CatalogBindings(w, e);
      case _ => MovedTraced(w, e, heard, k);
    }
  }

  lemma StepTraced(w: World, e: Event, heard: set<(Id, Outcome)>)
    requires Safe(w) && Traced(w, heard)
    ensures Traced(Apply(w, e), heard + Answered(w, e))
  {
    hide Safe, Apply, ApplyIssue, HostTraced, BindingTraced, PcTraced, Asks;
    if e.Issue? {
      EventIs(w, e);
      IssueTraced(w, e.worker, heard);
      assert heard + Answered(w, e) == heard;
    } else if e.Admit? {
      AdmitTraced(w, e, heard);
      assert heard + Answered(w, e) == heard;
    } else {
      HostsKept(w, e);
      BindingsKept(w, e);
      forall h | h in w.db.hosts ensures HostTraced(h, w.db.hosts[h], heard + Answered(w, e)) { HeardGrows(h, w.db.hosts[h], heard, Answered(w, e)); }
      forall h | h in w.db.bindings ensures BindingTraced(h, w.db.bindings[h], heard + Answered(w, e)) {
        BoundGrows(h, w.db.bindings[h], heard, Answered(w, e));
      }
      forall k | k in Apply(w, e).workers ensures PcTraced(Apply(w, e).workers[k], heard + Answered(w, e)) { WorkersTraced(w, e, heard, k); }
    }
  }

  lemma BoundGrows(h: Id, b: Binding, heard: set<(Id, Outcome)>, more: set<(Id, Outcome)>)
    requires BindingTraced(h, b, heard)
    ensures BindingTraced(h, b, heard + more)
  {
  }

  lemma {:induction false} RunTraced(es: seq<Event>)
    ensures Traced(Run(START, es), Heard(es))
  {
    hide Apply, Traced, Safe, Answered;
    if es == [] {
      StartTraced();
    } else {
      RunTraced(es[..|es| - 1]);
      Reachable(es[..|es| - 1]);
      StepTraced(Run(START, es[..|es| - 1]), es[|es| - 1], Heard(es[..|es| - 1]));
    }
  }

  lemma StartTraced()
    ensures Traced(START, {})
  {
  }

  // ---------- Main result ----------

  // In every run, what a host's rows record was answered to a controller of its own operation: the
  // provider and Node identifiers by a launch, the bound Node by an enrollment, the pin, contents
  // included, by a resolution.
  lemma IdentitiesWereAnswered(es: seq<Event>, h: Id)
    ensures var db := Run(START, es).db;
      (h in db.hosts && db.hosts[h].provider != "" ==> exists n :: (h, Launched(db.hosts[h].provider, n)) in Heard(es)) &&
      (h in db.hosts && db.hosts[h].node != "" ==> exists p :: (h, Launched(p, db.hosts[h].node)) in Heard(es)) &&
      (h in db.bindings ==> (h, JoinedAs(db.bindings[h].node)) in Heard(es)) &&
      (h in db.bindings && db.bindings[h].expected.Some? ==> (h, Resolved(db.bindings[h].expected.value)) in Heard(es))
  {
    hide Run, Heard;
    RunTraced(es);
    var db := Run(START, es).db;
    if h in db.hosts { assert HostTraced(h, db.hosts[h], Heard(es)); }
    if h in db.bindings { assert BindingTraced(h, db.bindings[h], Heard(es)); }
  }
}
