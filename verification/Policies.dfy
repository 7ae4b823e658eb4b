// Group rows over runs: every change of one is a compare-and-set, and a policy never changes.

module Policies {
  import opened Options
  import opened Int64
  import opened Capacity
  import opened Admission
  import opened Coupling
  import opened AdmissionSound
  import opened Protocol
  import opened Safety
  import opened Guarantees
  import opened Accounting
  import R = Removals

  // What the event asks of the group, if it may change its target.
  datatype Wish = Wish(group: string, expected: int, target: int)

  ghost function Asked(e: Event, g: Group): Option<Wish> {
    match e
    case Admit(req, _, _) => Some(Wish(req.group, req.expected, req.desired))
    case RemoveMany(_, batch) => Some(Wish(batch.group, batch.expected, g.target - |batch.nodes|))
    case RemoveNamed(_, expected, named) => if named.preserve then None else Some(Wish(named.group, expected, g.target - 1))
    case _ => None
  }

  // Row gid from g to g': nothing, the target and the next revision under the expected revision, or
  // the template from the expected one.
  ghost predicate Swapped(e: Event, gid: string, g: Group, g': Group) {
    g' == g ||
    (Asked(e, g) == Some(Wish(gid, g.revision, g'.target)) && (e.Admit? ==> e.req.template == g.template) &&
      g' == g.(target := g'.target, revision := g.revision + 1)) ||
    (e == NewTemplate(gid, g.template, g'.template) && g'.template != "" && g' == g.(template := g'.template))
  }

  ghost predicate Swaps(w: World, e: Event, w': World) {
    forall gid :: gid in w.db.groups ==> gid in w'.db.groups && Swapped(e, gid, w.db.groups[gid], w'.db.groups[gid])
  }

  lemma SameSwaps(w: World, e: Event, w': World)
    requires w'.db.groups == w.db.groups
    ensures Swaps(w, e, w')
  {
  }

  lemma AdmitSwaps(w: World, req: CapacityRequest, obs: Observed, pick: Pick)
    requires Sound(w.db)
    ensures Swaps(w, Admit(req, obs, pick), ApplyAdmit(w, req, obs, pick))
  {
    hide Sound, SetTarget;
    if Admits(w.db, req, obs, pick) { AdmitGroups(w.db, req, obs, pick); }
  }

  lemma ManySwaps(w: World, cluster: string, req: RemovalRequest)
    requires Sound(w.db)
    ensures Swaps(w, RemoveMany(cluster, req), ApplyRemoveMany(w, cluster, req))
  {
    hide Sound, RemoveBatch, R.Inserted, R.NodeFree, R.Delivered, R.Complete;
    if |req.nodes| <= MAX && RemoveBatch(w.db, cluster, req).0 != w.db {
      R.BatchCommitsExactly(w.db, cluster, req);
      R.BatchWrites(w.db, cluster, req);
    }
  }

  lemma NamedSwaps(w: World, cluster: string, expected: int, r: NamedRemoval)
    requires Sound(w.db)
    ensures Swaps(w, RemoveNamed(cluster, expected, r), ApplyRemoveNamed(w, cluster, expected, r))
  {
    hide Sound, RemoveOne, R.Owned;
    R.RemovalCommitsExactly(w.db, cluster, expected, r);
  }

  lemma CatalogSwaps(w: World, e: Event)
    requires e.NewPool? || e.NewGroup? || e.NewTemplate? || e.Tick? || e.Topology?
    ensures Swaps(w, e, Apply(w, e))
  {
    hide TopologyFree;
  }

  lemma LeaseKeepsGroups(w: World, e: Event)
    requires e.Take? || e.Extend? || e.Issue?
    ensures Apply(w, e).db.groups == w.db.groups
  {
    hide Permits, Effect, Locked, LockedByOther, Claimable, RowOf;
  }

  lemma ControllerKeepsGroups(w: World, e: Event)
    requires e.ReadHost? || e.Return? || e.Open? || e.Lift? || e.Land? || e.Confirm? || e.Crash?
    ensures Apply(w, e).db == w.db
  {
    hide Locked, OpensFinalize, Dispatch, Returned;
  }

  lemma Applies(w: World, e: Event)
    ensures e.Admit? ==> Apply(w, e) == ApplyAdmit(w, e.req, e.obs, e.pick)
    ensures e.RemoveMany? ==> Apply(w, e) == ApplyRemoveMany(w, e.principal, e.batch)
    ensures e.RemoveNamed? ==> Apply(w, e) == ApplyRemoveNamed(w, e.caller, e.expected, e.named)
  {
    hide ApplyAdmit, ApplyRemoveMany, ApplyRemoveNamed;
  }

  // In every run, whatever happens next: cluster, zone, pool, bounds and resources of a group never
  // change, its target moves only with its revision, by one, in a request that expected the revision
  // there is, and its template only by a replacement that expected the template there is.
  lemma ChangesCompareAndSet(es: seq<Event>, e: Event)
    ensures Swaps(Run(START, es), e, Apply(Run(START, es), e))
  {
    hide Run, Apply, Swaps, Safe, ApplyAdmit, ApplyRemoveMany, ApplyRemoveNamed;
    var w := Run(START, es);
    Reachable(es);
    Soundly(w);
    Applies(w, e);
    match e {
      case Admit(req, obs, pick) => AdmitSwaps(w, req, obs, pick);
      case RemoveMany(cluster, batch) => ManySwaps(w, cluster, batch);
      case RemoveNamed(cluster, expected, named) => NamedSwaps(w, cluster, expected, named);
      case NewPool(_, _) => CatalogSwaps(w, e);
      case NewGroup(_, _) => CatalogSwaps(w, e);
      case NewTemplate(_, _, _) => CatalogSwaps(w, e);
      case Tick(_) => CatalogSwaps(w, e);
      case Topology(_, _, _, _) => CatalogSwaps(w, e);
      case Take(_, _, _, _) => LeaseKeepsGroups(w, e); SameSwaps(w, e, Apply(w, e));
      case Extend(_, _) => LeaseKeepsGroups(w, e); SameSwaps(w, e, Apply(w, e));
      case Issue(_) => LeaseKeepsGroups(w, e); SameSwaps(w, e, Apply(w, e));
      case _ => ControllerKeepsGroups(w, e); SameSwaps(w, e, Apply(w, e));
    }
  }

  lemma Soundly(w: World)
    requires Safe(w)
    ensures Sound(w.db)
  {
  }
}
