// Books kept over whole runs: the committed target changes of a group carry the revisions
// 1, 2, 3, ... one each and replay to its target, and live hosts balance against the target,
// the removals and the decreases that could not be cancelled.

module Accounting {
  import opened Options
  import opened Int64
  import opened Counting
  import opened Capacity
  import opened Admission
  import opened Coupling
  import opened AdmissionSound
  import opened Progress
  import opened Protocol
  import opened Safety
  import opened Guarantees

  // ---------- The history of targets ----------

  // The changes of group g in the log, read backwards from its current revision and target:
  // each carries the next revision, starts where the previous one ended and stays in bounds;
  // the first starts from zero.
  predicate Chronicle(log: seq<Change>, g: string, revision: int, target: int, min: int, max: int) {
    if log == [] then revision == 0 && target == 0
    else
      var c := log[|log| - 1];
      var rest := log[..|log| - 1];
      if c.group != g then Chronicle(rest, g, revision, target, min, max)
      else c.revision == revision && c.after == target && min <= target <= max &&
           Chronicle(rest, g, revision - 1, c.before, min, max)
  }

  predicate HistoryOk(db: Db, log: seq<Change>) {
    (forall i :: 0 <= i < |log| ==> log[i].group in db.groups) &&
    forall g :: g in db.groups ==>
      Chronicle(log, g, db.groups[g].revision, db.groups[g].target, db.groups[g].min, db.groups[g].max)
  }

  lemma ChronicleAppend(log: seq<Change>, c: Change, g: string, revision: int, target: int, min: int, max: int)
    requires c.group != g ==> Chronicle(log, g, revision, target, min, max)
    requires c.group == g ==>
      c.revision == revision && c.after == target && min <= target <= max &&
      Chronicle(log, g, revision - 1, c.before, min, max)
    ensures Chronicle(log + [c], g, revision, target, min, max)
  {
    assert (log + [c])[..|log + [c]| - 1] == log;
  }

  lemma {:induction false} ChronicleNew(log: seq<Change>, g: string, min: int, max: int)
    requires forall i :: 0 <= i < |log| ==> log[i].group != g
    ensures Chronicle(log, g, 0, 0, min, max)
  {
    if log != [] { ChronicleNew(log[..|log| - 1], g, min, max); }
  }

  // Reading the chronicle: at revision r there are exactly r changes of the group.
  function CountOf(log: seq<Change>, g: string): nat {
    if log == [] then 0 else CountOf(log[..|log| - 1], g) + if log[|log| - 1].group == g then 1 else 0
  }

  lemma {:induction false} ChronicleCounts(log: seq<Change>, g: string, revision: int, target: int, min: int, max: int)
    requires Chronicle(log, g, revision, target, min, max)
    ensures CountOf(log, g) == revision
  {
    if log != [] {
      var c := log[|log| - 1];
      if c.group != g {
        ChronicleCounts(log[..|log| - 1], g, revision, target, min, max);
      } else {
        ChronicleCounts(log[..|log| - 1], g, revision - 1, c.before, min, max);
      }
    }
  }

  // The k-th change of a group carries revision k.
  lemma {:induction false} ChronicleAt(log: seq<Change>, g: string, revision: int, target: int, min: int, max: int, i: nat)
    requires Chronicle(log, g, revision, target, min, max) && i < |log| && log[i].group == g
    ensures log[i].revision == CountOf(log[..i + 1], g) && min <= log[i].after <= max
  {
    var n := |log| - 1;
    var c := log[n];
    if i == n {
      assert log[..i + 1] == log;
      ChronicleCounts(log, g, revision, target, min, max);
    } else {
      assert log[..n][..i + 1] == log[..i + 1];
      if c.group != g {
        ChronicleAt(log[..n], g, revision, target, min, max, i);
      } else {
        ChronicleAt(log[..n], g, revision - 1, c.before, min, max, i);
      }
    }
  }

  // ---------- Balances ----------

  predicate IsLive(db: Db, g: string, h: Id) {
    h in db.hosts && db.hosts[h].group == g && !db.hosts[h].state.Terminated?
  }

  function LiveOf(db: Db, g: string): nat -> int { (h: nat) => if IsLive(db, g, h) then 1 else 0 }

  function UnmarkedOf(db: Db, g: string): nat -> int { (h: nat) => if IsLive(db, g, h) && !db.hosts[h].excess then 1 else 0 }

  // Removals that lowered the target.
  function TakenOf(db: Db, g: string): nat -> int {
    (i: nat) => if i in db.removals && db.removals[i].group == g && !db.removals[i].preserve then 1 else 0
  }

  function LiveHosts(db: Db, g: string): int { Sum(LiveOf(db, g), db.next) }
  function UnmarkedHosts(db: Db, g: string): int { Sum(UnmarkedOf(db, g), db.next) }
  function TakenOff(db: Db, g: string): int { Sum(TakenOf(db, g), db.next) }

  // Decreases of the target that found no pending operation to cancel.
  function Deferred(log: seq<Change>, g: string): int {
    if log == [] then 0
    else
      var c := log[|log| - 1];
      Deferred(log[..|log| - 1], g) +
      if c.group == g && c.cause.Admitted? && c.after < c.before then c.before - c.after - c.cause.cancelled else 0
  }

  predicate Balanced(db: Db, log: seq<Change>, g: string)
    requires g in db.groups
  {
    LiveHosts(db, g) == db.groups[g].target + TakenOff(db, g) + Deferred(log, g) &&
    UnmarkedHosts(db, g) >= db.groups[g].target + TakenOff(db, g)
  }

  predicate Books(db: Db, log: seq<Change>) {
    HistoryOk(db, log) && forall g :: g in db.groups ==> Balanced(db, log, g)
  }

  // ---------- Steps that move nothing ----------

  predicate SameCounts(db: Db, db': Db) {
    db.next == db'.next && db'.removals == db.removals &&
    db'.hosts.Keys == db.hosts.Keys &&
    forall h :: h in db.hosts ==>
      db'.hosts[h].group == db.hosts[h].group && db'.hosts[h].excess == db.hosts[h].excess &&
      (db'.hosts[h].state.Terminated? <==> db.hosts[h].state.Terminated?)
  }

  lemma CountsSame(db: Db, db': Db, g: string)
    requires SameCounts(db, db')
    ensures LiveHosts(db', g) == LiveHosts(db, g) && UnmarkedHosts(db', g) == UnmarkedHosts(db, g) && TakenOff(db', g) == TakenOff(db, g)
  {
    SumSame(LiveOf(db, g), LiveOf(db', g), db.next);
    SumSame(UnmarkedOf(db, g), UnmarkedOf(db', g), db.next);
    SumSame(TakenOf(db, g), TakenOf(db', g), db.next);
  }

  predicate SameTargets(groups: map<string, Group>, groups': map<string, Group>) {
    forall g :: g in groups ==>
      g in groups' && groups'[g].target == groups[g].target && groups'[g].revision == groups[g].revision &&
      groups'[g].min == groups[g].min && groups'[g].max == groups[g].max
  }

  lemma QuietBooks(db: Db, db': Db, log: seq<Change>)
    requires Books(db, log) && SameCounts(db, db') && SameTargets(db.groups, db'.groups) && db'.groups.Keys == db.groups.Keys
    ensures Books(db', log)
  {
    hide LiveHosts, UnmarkedHosts, TakenOff;
    forall g | g in db'.groups
      ensures Balanced(db', log, g) && Chronicle(log, g, db'.groups[g].revision, db'.groups[g].target, db'.groups[g].min, db'.groups[g].max) {
      CountsSame(db, db', g);
      assert Balanced(db, log, g);
    }
  }

  lemma EffectCounts(r: Row, t: Token, w: Write, s: Site)
    requires RowPermits(r, t, w, s) && RowOk(r, t.op)
    ensures var h := Effect(r, t, w, s).host;
      h.group == r.host.group && h.excess == r.host.excess && (h.state.Terminated? <==> r.host.state.Terminated?)
  {
  }

  lemma PutCounts(db: Db, o: Id, r: Row)
    requires HasRow(db, o)
    requires var h := db.hosts[db.ops[o].host];
      r.host.group == h.group && r.host.excess == h.excess && (r.host.state.Terminated? <==> h.state.Terminated?)
    ensures SameCounts(db, PutRow(db, o, r)) && PutRow(db, o, r).groups == db.groups
  {
  }

  lemma WriteBooks(db: Db, log: seq<Change>, t: Token, w: Write)
    requires Sound(db) && Books(db, log)
    ensures Books(Perform(db, t, w), log)
  {
    hide Books, Permits, Sound, RowOk, RowPermits, Effect, PutRow, SameCounts;
    if Permits(db, t, w) {
      PermitsLive(db, t, w);
      var r, s := RowOf(db, t.op), SiteOf(db, t, w);
      RowOkAt(db, t.op);
      EffectCounts(r, t, w, s);
      PutCounts(db, t.op, Effect(r, t, w, s));
      QuietBooks(db, Perform(db, t, w), log);
    }
  }

  lemma ClaimBooks(db: Db, log: seq<Change>, o: Id, owner: string, d: int)
    requires Books(db, log) && HasRow(db, o)
    ensures Books(Claim(db, o, owner, d), log)
  {
    hide Books;
    QuietBooks(db, Claim(db, o, owner, d), log);
  }

  // ---------- Admission ----------

  function One(b: bool): int { if b then 1 else 0 }

  // A new host counts once, at the fresh identifier, and only for its group.
  lemma IntentPoint(db: Db, gid: string, g: Group, revision: int, k: string, h: nat)
    requires db.next !in db.hosts && db.next !in db.removals
    ensures var d := AddIntent(db, gid, g, revision);
      (h != db.next ==> LiveOf(d, k)(h) == LiveOf(db, k)(h) && UnmarkedOf(d, k)(h) == UnmarkedOf(db, k)(h)) && TakenOf(d, k)(h) == TakenOf(db, k)(h)
    ensures var d := AddIntent(db, gid, g, revision);
      LiveOf(d, k)(db.next) == One(k == gid) && UnmarkedOf(d, k)(db.next) == One(k == gid) && TakenOf(d, k)(db.next) == 0 && d.next == db.next + 1
  {
  }

  lemma IntentCounts(db: Db, gid: string, g: Group, revision: int, k: string)
    requires Linked(db)
    ensures var d := AddIntent(db, gid, g, revision);
      LiveHosts(d, k) == LiveHosts(db, k) + One(k == gid) && UnmarkedHosts(d, k) == UnmarkedHosts(db, k) + One(k == gid) &&
      TakenOff(d, k) == TakenOff(db, k)
  {
    hide Linked, AddIntent, LiveOf, UnmarkedOf, TakenOf;
    FreshId(db);
    var d := AddIntent(db, gid, g, revision);
    IntentPoint(db, gid, g, revision, k, db.next);
    forall h: nat | h < db.next
      ensures LiveOf(d, k)(h) == LiveOf(db, k)(h) && UnmarkedOf(d, k)(h) == UnmarkedOf(db, k)(h) && TakenOf(d, k)(h) == TakenOf(db, k)(h)
    {
      IntentPoint(db, gid, g, revision, k, h);
    }
    SumSame(LiveOf(db, k), LiveOf(d, k), db.next);
    SumSame(UnmarkedOf(db, k), UnmarkedOf(d, k), db.next);
    SumSame(TakenOf(db, k), TakenOf(d, k), db.next);
  }

  lemma {:induction false} IntentsCounts(db: Db, gid: string, g: Group, revision: int, count: nat, k: string)
    requires Core(db) && gid in db.groups && db.groups[gid].pool == g.pool
    ensures var d := AddIntents(db, gid, g, revision, count);
      LiveHosts(d, k) == LiveHosts(db, k) + One(k == gid) * count && UnmarkedHosts(d, k) == UnmarkedHosts(db, k) + One(k == gid) * count &&
      TakenOff(d, k) == TakenOff(db, k)
  {
    hide Core, Linked, LiveHosts, UnmarkedHosts, TakenOff;
    if count > 0 {
      IntentsCounts(db, gid, g, revision, count - 1, k);
      IntentsKeepCore(db, gid, g, revision, count - 1, g.pool);
      var mid := AddIntents(db, gid, g, revision, count - 1);
      CoreLinked(mid);
      IntentCounts(mid, gid, g, revision, k);
    }
  }

  lemma CancelPoint(db: Db, gid: string, chosen: set<Id>, k: string, h: Id)
    requires Linked(db) && chosen <= Cancellable(db, gid)
    ensures chosen <= db.ops.Keys
    ensures var d := CancelOps(db, chosen);
      LiveOf(db, k)(h) == LiveOf(d, k)(h) + One(h in chosen && k == gid) &&
      UnmarkedOf(db, k)(h) <= UnmarkedOf(d, k)(h) + One(h in chosen && k == gid)
  {
    hide Linked, Cancellable, CancelOps;
    CancellableHosts(db, gid);
    HostsAreOps(db, chosen);
    CancelFrame(db, chosen);
    if h in db.hosts {
      LinkedHasRow(db, h);
      CancelRow(db, chosen, h);
    }
  }

  lemma CancelFrame(db: Db, chosen: set<Id>)
    requires chosen <= db.ops.Keys
    ensures var d := CancelOps(db, chosen); d.next == db.next && d.removals == db.removals && d.hosts.Keys == db.hosts.Keys
  {
  }

  lemma CancelCounts(db: Db, gid: string, chosen: set<Id>, k: string)
    requires Linked(db) && chosen <= Cancellable(db, gid)
    ensures var d := CancelOps(db, chosen);
      LiveHosts(d, k) == LiveHosts(db, k) - One(k == gid) * |chosen| &&
      UnmarkedHosts(d, k) >= UnmarkedHosts(db, k) - One(k == gid) * |chosen| && TakenOff(d, k) == TakenOff(db, k)
  {
    hide Linked, Cancellable, CancelOps, LiveOf, UnmarkedOf;
    CancellableHosts(db, gid);
    HostsAreOps(db, chosen);
    OpsBelowNext(db);
    CancelFrame(db, chosen);
    var d := CancelOps(db, chosen);
    var cut := if k == gid then chosen else {};
    forall h: nat ensures LiveOf(db, k)(h) == LiveOf(d, k)(h) + Indicator(cut)(h) && UnmarkedOf(db, k)(h) <= UnmarkedOf(d, k)(h) + Indicator(cut)(h) {
      CancelPoint(db, gid, chosen, k, h);
    }
    SumIndicator(cut, db.next);
    SumAdd(LiveOf(d, k), Indicator(cut), LiveOf(db, k), db.next);
    var more := (h: nat) => UnmarkedOf(d, k)(h) + Indicator(cut)(h);
    SumAdd(UnmarkedOf(d, k), Indicator(cut), more, db.next);
    SumLess(UnmarkedOf(db, k), more, db.next);
    SumSame(TakenOf(db, k), TakenOf(d, k), db.next);
  }

  lemma MarkPoint(db: Db, gid: string, marks: set<Id>, k: string, h: Id)
    requires marks <= Markable(db, gid)
    ensures var d := MarkExcess(db, marks);
      IsLive(d, k, h) == IsLive(db, k, h) &&
      UnmarkedOf(db, k)(h) == UnmarkedOf(d, k)(h) + One(h in marks && k == gid)
  {
  }

  lemma MarkCounts(db: Db, gid: string, marks: set<Id>, k: string)
    requires Linked(db) && marks <= Markable(db, gid)
    ensures var d := MarkExcess(db, marks);
      LiveHosts(d, k) == LiveHosts(db, k) && UnmarkedHosts(d, k) == UnmarkedHosts(db, k) - One(k == gid) * |marks| &&
      TakenOff(d, k) == TakenOff(db, k)
  {
    var d := MarkExcess(db, marks);
    var cut := if k == gid then marks else {};
    assert forall i :: i in cut ==> i < db.next by { HostsBelowNext(db); }
    forall h: nat ensures LiveOf(db, k)(h) == LiveOf(d, k)(h) && UnmarkedOf(db, k)(h) == UnmarkedOf(d, k)(h) + Indicator(cut)(h) {
      MarkPoint(db, gid, marks, k, h);
    }
    assert d.next == db.next && d.removals == db.removals;
    hide Linked, MarkExcess, IsLive, IsMarkable;
    SumIndicator(cut, db.next);
    SumSame(LiveOf(db, k), LiveOf(d, k), db.next);
    SumAdd(UnmarkedOf(d, k), Indicator(cut), UnmarkedOf(db, k), db.next);
    SumSame(TakenOf(db, k), TakenOf(d, k), db.next);
  }

  lemma PickCounts(db: Db, gid: string, count: int, pick: Pick, k: string)
    requires Core(db) && PickOk(db, gid, count, pick)
    ensures var d := CancelWith(db, pick);
      LiveHosts(d, k) == LiveHosts(db, k) - One(k == gid) * |pick.cancel| &&
      UnmarkedHosts(d, k) >= UnmarkedHosts(db, k) - One(k == gid) * count && TakenOff(d, k) == TakenOff(db, k)
  {
    hide Core, Linked, LiveHosts, UnmarkedHosts, TakenOff, CancelOps, MarkExcess, IsCancellable, IsMarkable;
    CoreLinked(db);
    CancelCounts(db, gid, pick.cancel, k);
    CancelKeepsCore(db, gid, pick.cancel);
    CoreLinked(CancelOps(db, pick.cancel));
    MarkCounts(CancelOps(db, pick.cancel), gid, pick.mark, k);
  }

  // What one admitted request does to the balances of group k.
  lemma AdmitCounts(db: Db, req: CapacityRequest, obs: Observed, pick: Pick, k: string)
    requires Sound(db) && Admits(db, req, obs, pick)
    ensures var g := db.groups[req.group];
      var delta := req.desired - g.target;
      var d := SetTarget(db, req, obs, pick).0;
      Delta(g, req) == delta && TakenOff(d, k) == TakenOff(db, k) &&
      LiveHosts(d, k) == LiveHosts(db, k) + One(k == req.group) * (if delta >= 0 then delta else -|pick.cancel|) &&
      UnmarkedHosts(d, k) >= UnmarkedHosts(db, k) + One(k == req.group) * delta
  {
    hide Core, LiveHosts, UnmarkedHosts, TakenOff, AddIntents, CancelWith, PickOk, Used, Fits;
    var g := db.groups[req.group];
    var r := Retarget(db, req, g);
    NoOverflow(db, req, obs.enabled);
    RetargetKeepsSound(db, req, obs.enabled);
    CountsSame(db, r, k);
    if Delta(g, req) > 0 {
      IntentsCounts(r, req.group, g, Wrap(g.revision + 1), Delta(g, req), k);
    } else if Delta(g, req) < 0 {
      PickTransfer(db, r, req.group, -Delta(g, req), pick);
      PickCounts(r, req.group, -Delta(g, req), pick, k);
    }
  }

  // What it does to the group rows.
  lemma AdmitGroups(db: Db, req: CapacityRequest, obs: Observed, pick: Pick)
    requires Sound(db) && Admits(db, req, obs, pick)
    ensures req.group in db.groups
    ensures var g := db.groups[req.group];
      SetTarget(db, req, obs, pick).0.groups == db.groups[req.group := g.(target := req.desired, revision := g.revision + 1)] &&
      g.min <= req.desired <= g.max && Wrap(g.revision + 1) == g.revision + 1
  {
    hide Core, PoolBound, Used, Fits, PickOk, AddIntents, CancelWith, Late, Plus, Scale;
    var g := db.groups[req.group];
    var r := Retarget(db, req, g);
    NoOverflow(db, req, obs.enabled);
    if Delta(g, req) > 0 { IntentsFrame(r, req.group, g, Wrap(g.revision + 1), Delta(g, req)); }
    PickFrame(r, pick);
  }

  lemma DeferredAppend(log: seq<Change>, c: Change, g: string)
    ensures Deferred(log + [c], g) == Deferred(log, g) +
      if c.group == g && c.cause.Admitted? && c.after < c.before then c.before - c.after - c.cause.cancelled else 0
  {
    assert (log + [c])[..|log + [c]| - 1] == log;
  }

  lemma AdmitBooks(w: World, req: CapacityRequest, obs: Observed, pick: Pick)
    requires Sound(w.db) && Books(w.db, w.log)
    ensures Books(ApplyAdmit(w, req, obs, pick).db, ApplyAdmit(w, req, obs, pick).log)
  {
    hide Sound, LiveHosts, UnmarkedHosts, TakenOff, SetTarget, Admits, Deferred, Chronicle;
    if Admits(w.db, req, obs, pick) {
      var w' := ApplyAdmit(w, req, obs, pick);
      var c := w'.log[|w.log|];
      AdmitGroups(w.db, req, obs, pick);
      forall k | k in w'.db.groups
        ensures Balanced(w'.db, w'.log, k)
        ensures Chronicle(w'.log, k, w'.db.groups[k].revision, w'.db.groups[k].target, w'.db.groups[k].min, w'.db.groups[k].max)
      {
        AdmitCounts(w.db, req, obs, pick, k);
        DeferredAppend(w.log, c, k);
        assert Balanced(w.db, w.log, k);
        ChronicleAppend(w.log, c, k, w'.db.groups[k].revision, w'.db.groups[k].target, w'.db.groups[k].min, w'.db.groups[k].max);
      }
    }
  }

  // ---------- Removals ----------

  lemma RemovalPoint(db: Db, gid: string, g: Group, removal: Removal, k: string, i: Id)
    requires removal.group == gid && db.next !in db.hosts && db.next !in db.removals
    ensures var d := AddRemoval(db, gid, g, removal);
      LiveOf(d, k)(i) == LiveOf(db, k)(i) && UnmarkedOf(d, k)(i) == UnmarkedOf(db, k)(i) &&
      TakenOf(d, k)(i) == TakenOf(db, k)(i) + One(i == db.next && k == gid && !removal.preserve) &&
      (i == db.next ==> LiveOf(db, k)(i) == 0 && UnmarkedOf(db, k)(i) == 0 && TakenOf(db, k)(i) == 0)
  {
  }

  lemma RemovalCounts(db: Db, gid: string, g: Group, removal: Removal, k: string)
    requires Linked(db) && removal.group == gid
    ensures var d := AddRemoval(db, gid, g, removal);
      LiveHosts(d, k) == LiveHosts(db, k) && UnmarkedHosts(d, k) == UnmarkedHosts(db, k) &&
      TakenOff(d, k) == TakenOff(db, k) + One(k == gid && !removal.preserve)
  {
    var d := AddRemoval(db, gid, g, removal);
    FreshId(db);
    assert d.next == db.next + 1;
    hide Linked, AddRemoval, LiveOf, UnmarkedOf, TakenOf;
    forall i: nat
      ensures LiveOf(d, k)(i) == LiveOf(db, k)(i) && UnmarkedOf(d, k)(i) == UnmarkedOf(db, k)(i)
      ensures i < db.next ==> TakenOf(d, k)(i) == TakenOf(db, k)(i)
    {
      RemovalPoint(db, gid, g, removal, k, i);
    }
    RemovalPoint(db, gid, g, removal, k, db.next);
    SumSame(LiveOf(db, k), LiveOf(d, k), db.next);
    SumSame(UnmarkedOf(db, k), UnmarkedOf(d, k), db.next);
    SumSame(TakenOf(db, k), TakenOf(d, k), db.next);
  }

  lemma {:induction false} RemovalsCounts(db: Db, g: Group, req: RemovalRequest, revision: int, count: nat, k: string)
    requires Sound(db) && req.group in db.groups && count <= |req.nodes|
    requires forall i :: 0 <= i < count ==> req.nodes[i].host in db.hosts
    ensures var d := AddRemovals(db, g, req, revision, count);
      LiveHosts(d, k) == LiveHosts(db, k) && UnmarkedHosts(d, k) == UnmarkedHosts(db, k) &&
      TakenOff(d, k) == TakenOff(db, k) + One(k == req.group) * count
  {
    hide Sound, Linked, LiveHosts, UnmarkedHosts, TakenOff;
    if count > 0 {
      var mid := AddRemovals(db, g, req, revision, count - 1);
      RemovalsCounts(db, g, req, revision, count - 1, k);
      RemovalsKeepSound(db, g, req, revision, count - 1);
      SoundLinked(mid);
      RemovalCounts(mid, req.group, g, Removal(req.group, req.nodes[count - 1].host, false, revision, Some(req)), k);
    }
  }

  lemma RemoveBatchCounts(db: Db, cluster: string, req: RemovalRequest, k: string)
    requires Sound(db) && |req.nodes| <= MAX && RemoveBatch(db, cluster, req).0 != db
    ensures req.group in db.groups
    ensures var g := db.groups[req.group];
      var d := RemoveBatch(db, cluster, req).0;
      d.groups == db.groups[req.group := g.(target := g.target - |req.nodes|, revision := g.revision + 1)] &&
      g.min <= g.target - |req.nodes| && g.target <= g.max && Wrap(g.revision + 1) == g.revision + 1 &&
      LiveHosts(d, k) == LiveHosts(db, k) && UnmarkedHosts(d, k) == UnmarkedHosts(db, k) &&
      TakenOff(d, k) == TakenOff(db, k) + One(k == req.group) * |req.nodes|
  {
    hide Linked, Coupled, NodesDistinct, PoolBound, AddRemovals, WellFormedNodes, IsReplay, LiveHosts, UnmarkedHosts, TakenOff;
    var g := db.groups[req.group];
    assert TypedGroup(g);
    forall i | 0 <= i < |req.nodes| ensures req.nodes[i].host in db.hosts {
      NodesChecked(db, req.group, req.nodes, i);
    }
    var d := Lower(db, req.group, |req.nodes|, g.revision + 1);
    LowerKeepsSound(db, req.group, |req.nodes|);
    CountsSame(db, d, k);
    RemovalsCounts(d, g, req, g.revision + 1, |req.nodes|, k);
    RemovalsKeepSound(d, g, req, g.revision + 1, |req.nodes|);
  }

  lemma RemoveOneCounts(db: Db, cluster: string, expected: int, r: NamedRemoval, k: string)
    requires Sound(db) && RemoveOne(db, cluster, expected, r).1.None?
    ensures r.group in db.groups
    ensures var g := db.groups[r.group];
      var d := RemoveOne(db, cluster, expected, r).0;
      var n := One(!r.preserve);
      d.groups == db.groups[r.group := g.(target := g.target - n, revision := g.revision + n)] &&
      (!r.preserve ==> g.min <= g.target - 1 && g.target <= g.max && Wrap(g.revision + 1) == g.revision + 1) &&
      LiveHosts(d, k) == LiveHosts(db, k) && UnmarkedHosts(d, k) == UnmarkedHosts(db, k) &&
      TakenOff(d, k) == TakenOff(db, k) + One(k == r.group) * n
  {
    hide Linked, Coupled, NodesDistinct, PoolBound, UnderRemoval, LiveHosts, UnmarkedHosts, TakenOff;
    var g := db.groups[r.group];
    assert TypedGroup(g);
    if r.preserve {
      RemovalCounts(db, r.group, g, Removal(r.group, r.host, true, g.revision, None), k);
      assert db.groups == db.groups[r.group := g];
    } else {
      var d := Lower(db, r.group, 1, g.revision + 1);
      LowerKeepsSound(db, r.group, 1);
      CountsSame(db, d, k);
      SoundLinked(d);
      RemovalCounts(d, r.group, g, Removal(r.group, r.host, false, g.revision + 1, None), k);
    }
  }

  // Both kinds of removal lower a target by n, add n removals and leave the hosts alone.
  lemma LoweredBooks(w: World, w': World, gid: string, n: int)
    requires Books(w.db, w.log) && gid in w.db.groups && n > 0
    requires var g := w.db.groups[gid];
      w'.db.groups == w.db.groups[gid := g.(target := g.target - n, revision := g.revision + 1)] &&
      g.min <= g.target - n && g.target <= g.max &&
      w'.log == w.log + [Change(gid, g.revision + 1, g.target, g.target - n, Removed)]
    requires forall k :: k in w.db.groups ==>
      LiveHosts(w'.db, k) == LiveHosts(w.db, k) && UnmarkedHosts(w'.db, k) == UnmarkedHosts(w.db, k) &&
      TakenOff(w'.db, k) == TakenOff(w.db, k) + One(k == gid) * n
    ensures Books(w'.db, w'.log)
  {
    hide LiveHosts, UnmarkedHosts, TakenOff, Deferred, Chronicle;
    var c := w'.log[|w.log|];
    forall k | k in w'.db.groups
      ensures Balanced(w'.db, w'.log, k)
      ensures Chronicle(w'.log, k, w'.db.groups[k].revision, w'.db.groups[k].target, w'.db.groups[k].min, w'.db.groups[k].max)
    {
      DeferredAppend(w.log, c, k);
      assert Balanced(w.db, w.log, k);
      ChronicleAppend(w.log, c, k, w'.db.groups[k].revision, w'.db.groups[k].target, w'.db.groups[k].min, w'.db.groups[k].max);
    }
  }

  lemma RemoveManyBooks(w: World, cluster: string, req: RemovalRequest)
    requires Sound(w.db) && Books(w.db, w.log)
    ensures Books(ApplyRemoveMany(w, cluster, req).db, ApplyRemoveMany(w, cluster, req).log)
  {
    hide Sound, Books, RemoveBatch, LiveHosts, UnmarkedHosts, TakenOff;
    var w' := ApplyRemoveMany(w, cluster, req);
    if w' != w {
      RemoveBatchCounts(w.db, cluster, req, req.group);
      forall k ensures LiveHosts(w'.db, k) == LiveHosts(w.db, k) && UnmarkedHosts(w'.db, k) == UnmarkedHosts(w.db, k) &&
        TakenOff(w'.db, k) == TakenOff(w.db, k) + One(k == req.group) * |req.nodes| {
        RemoveBatchCounts(w.db, cluster, req, k);
      }
      NonEmptyBatch(w.db, cluster, req);
      LoweredBooks(w, w', req.group, |req.nodes|);
    }
  }

  lemma NonEmptyBatch(db: Db, cluster: string, req: RemovalRequest)
    requires RemoveBatch(db, cluster, req).0 != db
    ensures |req.nodes| > 0
  {
  }

  lemma RemoveNamedBooks(w: World, cluster: string, expected: int, r: NamedRemoval)
    requires Sound(w.db) && Books(w.db, w.log)
    ensures Books(ApplyRemoveNamed(w, cluster, expected, r).db, ApplyRemoveNamed(w, cluster, expected, r).log)
  {
    hide Sound, RemoveOne, LiveHosts, UnmarkedHosts, TakenOff;
    if RemoveOne(w.db, cluster, expected, r).1.None? {
      var w' := ApplyRemoveNamed(w, cluster, expected, r);
      RemoveOneCounts(w.db, cluster, expected, r, r.group);
      forall k ensures LiveHosts(w'.db, k) == LiveHosts(w.db, k) && UnmarkedHosts(w'.db, k) == UnmarkedHosts(w.db, k) &&
        TakenOff(w'.db, k) == TakenOff(w.db, k) + One(k == r.group) * One(!r.preserve) {
        RemoveOneCounts(w.db, cluster, expected, r, k);
      }
      if r.preserve {
        forall k | k in w'.db.groups ensures Balanced(w'.db, w.log, k) { assert Balanced(w.db, w.log, k); }
      } else {
        LoweredBooks(w, w', r.group, 1);
      }
    }
  }

  // ---------- Topology ----------

  // The balance and the history of one group.
  predicate Account(db: Db, log: seq<Change>, k: string)
    requires k in db.groups
  {
    Balanced(db, log, k) && Chronicle(log, k, db.groups[k].revision, db.groups[k].target, db.groups[k].min, db.groups[k].max)
  }

  lemma OpenedAccount(db: Db, d: Db, log: seq<Change>, id: string)
    requires Linked(db) && SameCounts(db, d) && id !in db.groups && id in d.groups && d.groups[id].target == 0 && d.groups[id].revision == 0
    requires forall i :: 0 <= i < |log| ==> log[i].group in db.groups
    ensures Account(d, log, id)
  {
    hide Linked, SameCounts, LiveHosts, UnmarkedHosts, TakenOff, Chronicle, Deferred;
    CountsSame(db, d, id);
    ChronicleNew(log, id, d.groups[id].min, d.groups[id].max);
    NewGroupEmpty(db, log, id);
  }

  lemma KeptAccount(db: Db, d: Db, log: seq<Change>, k: string)
    requires SameCounts(db, d) && k in db.groups && k in d.groups && d.groups[k] == db.groups[k] && Account(db, log, k)
    ensures Account(d, log, k)
  {
    hide SameCounts, LiveHosts, UnmarkedHosts, TakenOff, Chronicle, Deferred;
    CountsSame(db, d, k);
  }

  lemma GroupBooks(w: World, id: string, g: Group)
    requires Sound(w.db) && Books(w.db, w.log)
    ensures Books(CreateGroup(w.db, id, g), w.log)
  {
    hide Sound, CreateGroup, Linked, SameCounts, Balanced, Chronicle;
    var d := CreateGroup(w.db, id, g);
    NewGroup(w.db, id, g);
    if d != w.db {
      SoundLinked(w.db);
      forall k | k in d.groups ensures Account(d, w.log, k) {
        if k == id { OpenedAccount(w.db, d, w.log, id); } else { KeptAccount(w.db, d, w.log, k); }
      }
    }
  }

  lemma NewGroup(db: Db, id: string, g: Group)
    ensures var d := CreateGroup(db, id, g);
      SameCounts(db, d) &&
      (d != db ==>
        id !in db.groups && d.groups.Keys == db.groups.Keys + {id} &&
        d.groups[id].target == 0 && d.groups[id].revision == 0 &&
        forall k :: k in db.groups ==> d.groups[k] == db.groups[k])
  {
  }

  // Nothing in the tables or the log mentions a group that does not exist yet.
  lemma NewGroupEmpty(db: Db, log: seq<Change>, id: string)
    requires Linked(db) && id !in db.groups && forall i :: 0 <= i < |log| ==> log[i].group in db.groups
    ensures LiveHosts(db, id) == 0 && UnmarkedHosts(db, id) == 0 && TakenOff(db, id) == 0 && Deferred(log, id) == 0
  {
    forall h: nat ensures LiveOf(db, id)(h) == 0 && UnmarkedOf(db, id)(h) == 0 && TakenOf(db, id)(h) == 0 {
      if h in db.hosts { assert LinkedHost(db, h) && LinkedOp(db, h); }
      if h in db.removals { assert LinkedRemoval(db, h) && LinkedOp(db, h); }
    }
    DeferredNew(log, id);
    SumZero(LiveOf(db, id), db.next);
    SumZero(UnmarkedOf(db, id), db.next);
    SumZero(TakenOf(db, id), db.next);
  }

  lemma {:induction false} DeferredNew(log: seq<Change>, id: string)
    requires forall i :: 0 <= i < |log| ==> log[i].group != id
    ensures Deferred(log, id) == 0
  {
    if log != [] { DeferredNew(log[..|log| - 1], id); }
  }

  // ---------- Runs ----------

  lemma WriteStepBooks(w: World, e: Event)
    requires Sound(w.db) && Books(w.db, w.log) && (e.Issue? || e.Extend?)
    ensures Books(Apply(w, e).db, Apply(w, e).log)
  {
    hide Sound, Books, Perform, Permits, Locked, LockedByOther;
    match e {
      case Issue(k) =>
        if k in w.workers && WriteAt(w.workers[k]).Some? {
          WriteBooks(w.db, w.log, w.workers[k].t, WriteAt(w.workers[k]).value);
        }
      case Extend(k, d) =>
        if k in w.workers { WriteBooks(w.db, w.log, w.workers[k].t, Renew(d)); }
    }
  }

  lemma TakeStepBooks(w: World, k: nat, o: Id, owner: string, d: int)
    requires Books(w.db, w.log)
    ensures var w' := ApplyTake(w, k, o, owner, d); Books(w'.db, w'.log)
  {
    hide Books, Claim, Locked, MemberReady, DominatorOf, Free;
    if Claimable(w.db, o, owner) { ClaimBooks(w.db, w.log, o, owner, d); }
  }

  lemma PolicySame(w: World, e: Event)
    requires e.Tick? || e.Topology? || e.NewPool? || e.NewTemplate?
    ensures var db' := Apply(w, e).db;
      SameCounts(w.db, db') && SameTargets(w.db.groups, db'.groups) && db'.groups.Keys == w.db.groups.Keys && Apply(w, e).log == w.log
  {
    hide TopologyFree;
  }

  lemma PolicyBooks(w: World, e: Event)
    requires Books(w.db, w.log) && (e.Tick? || e.Topology? || e.NewPool? || e.NewTemplate?)
    ensures Books(Apply(w, e).db, Apply(w, e).log)
  {
    hide Books, Apply, SameCounts, SameTargets;
    PolicySame(w, e);
    QuietBooks(w.db, Apply(w, e).db, w.log);
  }

  lemma BooksStep(w: World, e: Event)
    requires Sound(w.db) && Books(w.db, w.log)
    ensures Books(Apply(w, e).db, Apply(w, e).log)
  {
    hide Sound, Books, ApplyAdmit, ApplyRemoveMany, ApplyRemoveNamed, ApplyTake, ApplyIssue, ApplyExtend, ApplyOpen,
      ApplyLift, ApplyConfirm, ApplyReadHost, CreateGroup, CreatePool, UpdateTemplate, TopologyFree, Returned;
    match e {
      case Admit(req, obs, pick) => AdmitBooks(w, req, obs, pick);
      case RemoveMany(cluster, req) => RemoveManyBooks(w, cluster, req);
      case RemoveNamed(cluster, expected, r) => RemoveNamedBooks(w, cluster, expected, r);
      case NewGroup(id, g) => GroupBooks(w, id, g);
      case Take(k, o, owner, d) => TakeStepBooks(w, k, o, owner, d);
      case Issue(_) => WriteStepBooks(w, e);
      case Extend(_, _) => WriteStepBooks(w, e);
      case Tick(_) => PolicyBooks(w, e);
      case Topology(_, _, _, _) => PolicyBooks(w, e);
      case NewPool(_, _) => PolicyBooks(w, e);
      case NewTemplate(_, _, _) => PolicyBooks(w, e);
      case _ => MovesKeepTables(w, e);
    }
  }

  lemma {:induction false} BooksKept(es: seq<Event>)
    ensures Books(Run(START, es).db, Run(START, es).log)
  {
    if es != [] {
      hide Safe, Books, Apply;
      BooksKept(es[..|es| - 1]);
      Reachable(es[..|es| - 1]);
      SafeSound(Run(START, es[..|es| - 1]));
      BooksStep(Run(START, es[..|es| - 1]), es[|es| - 1]);
    }
  }

  // ---------- Main results ----------

  // The committed changes of a group's target number exactly its target revision, the i-th of
  // them carries revision i, and each leaves the target within the group's bounds.
  lemma RevisionsAreExact(es: seq<Event>, g: string)
    requires g in Run(START, es).db.groups
    ensures var w := Run(START, es);
      CountOf(w.log, g) == w.db.groups[g].revision &&
      forall i :: 0 <= i < |w.log| && w.log[i].group == g ==>
        w.log[i].revision == CountOf(w.log[..i + 1], g) && w.db.groups[g].min <= w.log[i].after <= w.db.groups[g].max
  {
    hide Run, CountOf, Chronicle;
    BooksKept(es);
    var w := Run(START, es);
    var p := w.db.groups[g];
    ChronicleCounts(w.log, g, p.revision, p.target, p.min, p.max);
    forall i | 0 <= i < |w.log| && w.log[i].group == g
      ensures w.log[i].revision == CountOf(w.log[..i + 1], g) && p.min <= w.log[i].after <= p.max
    {
      ChronicleAt(w.log, g, p.revision, p.target, p.min, p.max, i);
    }
  }

  // Adding up a group's changes in order, from zero, gives its current target.
  function Replay(log: seq<Change>, g: string): int {
    if log == [] then 0
    else
      var c := log[|log| - 1];
      Replay(log[..|log| - 1], g) + if c.group == g then c.after - c.before else 0
  }

  lemma {:induction false} ChronicleReplays(log: seq<Change>, g: string, revision: int, target: int, min: int, max: int)
    requires Chronicle(log, g, revision, target, min, max)
    ensures Replay(log, g) == target
  {
    if log != [] {
      var c := log[|log| - 1];
      ChronicleReplays(log[..|log| - 1], g, if c.group == g then revision - 1 else revision,
                       if c.group == g then c.before else target, min, max);
    }
  }

  lemma ReplayYieldsTarget(es: seq<Event>, g: string)
    requires g in Run(START, es).db.groups
    ensures Replay(Run(START, es).log, g) == Run(START, es).db.groups[g].target
  {
    hide Run;
    BooksKept(es);
    var p := Run(START, es).db.groups[g];
    ChronicleReplays(Run(START, es).log, g, p.revision, p.target, p.min, p.max);
  }

  // Live hosts are the target, plus what removals took off it, plus the decreases that found
  // nothing to cancel. Live hosts, and those not marked excess, are never fewer than the target.
  lemma HostsAreConserved(es: seq<Event>, g: string)
    requires g in Run(START, es).db.groups
    ensures var w := Run(START, es);
      LiveHosts(w.db, g) == w.db.groups[g].target + TakenOff(w.db, g) + Deferred(w.log, g) &&
      0 <= Deferred(w.log, g) && 0 <= TakenOff(w.db, g) &&
      w.db.groups[g].target <= UnmarkedHosts(w.db, g) <= LiveHosts(w.db, g)
  {
    hide Run, HistoryOk;
    BooksKept(es);
    var w := Run(START, es);
    assert Balanced(w.db, w.log, g);
    SumLess(UnmarkedOf(w.db, g), LiveOf(w.db, g), w.db.next);
    SumLess((i: nat) => 0, TakenOf(w.db, g), w.db.next);
    SumZero((i: nat) => 0, w.db.next);
  }

  // ---------- Operations by revision ----------

  // Provision operations of a group created for one revision of its target.
  function StampedOf(db: Db, g: string, revision: int): nat -> int {
    (o: nat) => if o in db.ops && db.ops[o].kind.Provision? && db.ops[o].group == g && db.ops[o].revision == revision then 1 else 0
  }

  function Stamped(db: Db, g: string, revision: int): int { Sum(StampedOf(db, g, revision), db.next) }

  // By how much the change with that revision raised the target.
  function Raised(log: seq<Change>, g: string, revision: int): int {
    if log == [] then 0
    else
      var c := log[|log| - 1];
      Raised(log[..|log| - 1], g, revision) +
      if c.group == g && c.revision == revision && c.cause.Admitted? && c.after > c.before then c.after - c.before else 0
  }

  lemma RaisedAppend(log: seq<Change>, c: Change, g: string, revision: int)
    ensures Raised(log + [c], g, revision) == Raised(log, g, revision) +
      if c.group == g && c.revision == revision && c.cause.Admitted? && c.after > c.before then c.after - c.before else 0
  {
    assert (log + [c])[..|log + [c]| - 1] == log;
  }

  // Without new hosts there are no new operations to count, and stamps never change.
  lemma StampPoint(db: Db, d: Db, g: string, revision: int, o: Id)
    requires Linked(db) && Linked(d) && RowsAdvance(db, d) && d.hosts.Keys == db.hosts.Keys
    ensures StampedOf(d, g, revision)(o) == StampedOf(db, g, revision)(o)
    ensures o >= db.next ==> StampedOf(db, g, revision)(o) == 0
  {
    hide MovesForward, KeepsCredit, KeepsBinding, LeaseStep, Settled;
    if o in db.hosts {
      LinkedHasRow(db, o);
      LinkedHasRow(d, o);
      assert Advances(RowOf(db, o), RowOf(d, o), db.clock);
    }
    if o in db.ops { assert LinkedOp(db, o); }
    if o in d.ops { assert LinkedOp(d, o); }
  }

  lemma StampsSame(db: Db, d: Db, g: string, revision: int)
    requires Linked(db) && Linked(d) && RowsAdvance(db, d) && d.hosts.Keys == db.hosts.Keys && db.next <= d.next
    ensures Stamped(d, g, revision) == Stamped(db, g, revision)
  {
    hide Linked, RowsAdvance, StampedOf;
    forall o: nat ensures StampedOf(d, g, revision)(o) == StampedOf(db, g, revision)(o) && (o >= db.next ==> StampedOf(db, g, revision)(o) == 0) {
      StampPoint(db, d, g, revision, o);
    }
    SumSame(StampedOf(db, g, revision), StampedOf(d, g, revision), db.next);
    SumExtend(StampedOf(d, g, revision), db.next, d.next);
  }

  lemma IntentStamp(db: Db, gid: string, g: Group, stamp: int, k: string, revision: int)
    requires db.next !in db.ops
    ensures Stamped(AddIntent(db, gid, g, stamp), k, revision) == Stamped(db, k, revision) + One(k == gid && revision == stamp)
  {
    var d := AddIntent(db, gid, g, stamp);
    assert forall o: nat :: o < db.next ==> StampedOf(db, k, revision)(o) == StampedOf(d, k, revision)(o);
    assert StampedOf(d, k, revision)(db.next) == One(k == gid && revision == stamp);
    assert d.next == db.next + 1;
    hide AddIntent, StampedOf;
    SumSame(StampedOf(db, k, revision), StampedOf(d, k, revision), db.next);
  }

  lemma {:induction false} IntentsStamp(db: Db, gid: string, g: Group, stamp: int, count: nat, k: string, revision: int)
    requires Core(db) && gid in db.groups && db.groups[gid].pool == g.pool
    ensures Stamped(AddIntents(db, gid, g, stamp, count), k, revision) ==
      Stamped(db, k, revision) + if k == gid && revision == stamp then count else 0
  {
    hide Core, Stamped, AddIntent, Used, Plus, Scale, Linked;
    if count > 0 {
      var mid := AddIntents(db, gid, g, stamp, count - 1);
      IntentsStamp(db, gid, g, stamp, count - 1, k, revision);
      IntentsKeepCore(db, gid, g, stamp, count - 1, g.pool);
      CoreLinked(mid);
      FreshId(mid);
      IntentStamp(mid, gid, g, stamp, k, revision);
    }
  }

  lemma AdmitStamps(w: World, req: CapacityRequest, obs: Observed, pick: Pick, k: string, revision: int)
    requires Sound(w.db) && Admits(w.db, req, obs, pick)
    ensures var w' := ApplyAdmit(w, req, obs, pick);
      Stamped(w'.db, k, revision) - Stamped(w.db, k, revision) == Raised(w'.log, k, revision) - Raised(w.log, k, revision)
  {
    hide Core, PoolBound, Used, Late, AddIntents, CancelWith, PickOk, Stamped, Raised;
    var w' := ApplyAdmit(w, req, obs, pick);
    var g := w.db.groups[req.group];
    var d := Retarget(w.db, req, g);
    NoOverflow(w.db, req, obs.enabled);
    RetargetKeepsSound(w.db, req, obs.enabled);
    GroupTyped(w.db, req.group);
    RaisedAppend(w.log, w'.log[|w.log|], k, revision);
    RetargetStamps(w.db, d, k, revision);
    if Delta(g, req) > 0 {
      IntentsStamp(d, req.group, g, Wrap(g.revision + 1), Delta(g, req), k, revision);
    } else if Delta(g, req) < 0 {
      PickStamps(d, pick, k, revision);
    }
  }

  lemma RetargetStamps(db: Db, d: Db, k: string, revision: int)
    requires d.ops == db.ops && d.next == db.next
    ensures Stamped(d, k, revision) == Stamped(db, k, revision)
  {
    SumSame(StampedOf(db, k, revision), StampedOf(d, k, revision), db.next);
  }

  lemma PickStamps(db: Db, pick: Pick, k: string, revision: int)
    requires pick.cancel <= db.ops.Keys
    ensures Stamped(CancelWith(db, pick), k, revision) == Stamped(db, k, revision)
  {
    var d := CancelWith(db, pick);
    assert forall o: nat :: StampedOf(db, k, revision)(o) == StampedOf(d, k, revision)(o);
    assert d.next == db.next;
    hide CancelWith, StampedOf;
    SumSame(StampedOf(db, k, revision), StampedOf(d, k, revision), db.next);
  }

  // Only admissions create hosts.
  lemma HostKeysStay(w: World, e: Event)
    requires Safe(w) && !e.Admit?
    ensures Apply(w, e).db.hosts.Keys == w.db.hosts.Keys && w.db.next <= Apply(w, e).db.next
  {
    hide Safe, Apply;
    match e {
      case RemoveMany(_, _) => RemovalHosts(w, e); RemovalNext(w, e);
      case RemoveNamed(_, _, _) => RemovalHosts(w, e); RemovalNext(w, e);
      case Take(_, _, _, _) => RecordKeys(w, e);
      case Issue(_) => RecordKeys(w, e);
      case Extend(_, _) => RecordKeys(w, e);
      case Tick(_) => CatalogKeys(w, e);
      case Topology(_, _, _, _) => CatalogKeys(w, e);
      case NewPool(_, _) => CatalogKeys(w, e);
      case NewGroup(_, _) => CatalogKeys(w, e);
      case NewTemplate(_, _, _) => CatalogKeys(w, e);
      case _ => MovesKeepTables(w, e);
    }
  }

  lemma CatalogKeys(w: World, e: Event)
    requires e.Tick? || e.Topology? || e.NewPool? || e.NewGroup? || e.NewTemplate?
    ensures Apply(w, e).db.hosts == w.db.hosts && Apply(w, e).db.next == w.db.next
  {
    hide TopologyFree;
  }

  lemma RecordKeys(w: World, e: Event)
    requires e.Take? || e.Issue? || e.Extend?
    ensures Apply(w, e).db.hosts.Keys == w.db.hosts.Keys && Apply(w, e).db.next == w.db.next
  {
    hide Permits, Effect, Locked, LockedByOther, MemberReady, DominatorOf, Free;
    match e {
      case Take(_, _, _, _) =>
      case Issue(k) =>
        if k in w.workers && WriteAt(w.workers[k]).Some? { PerformKeys(w.db, w.workers[k].t, WriteAt(w.workers[k]).value); }
      case Extend(k, d) => if k in w.workers { PerformKeys(w.db, w.workers[k].t, Renew(d)); }
    }
  }

  lemma PerformKeys(db: Db, t: Token, w: Write)
    ensures Perform(db, t, w).hosts.Keys == db.hosts.Keys && Perform(db, t, w).next == db.next
  {
    hide RowPermits, Effect;
  }

  lemma RemovalNext(w: World, e: Event)
    requires e.RemoveMany? || e.RemoveNamed?
    ensures w.db.next <= Apply(w, e).db.next
  {
    hide NodesError, WellFormedNodes, IsReplay, AddRemovals, UnderRemoval;
    match e {
      case RemoveMany(cluster, req) =>
        if Apply(w, e).db != w.db {
          var g := w.db.groups[req.group];
          BatchNext(Lower(w.db, req.group, |req.nodes|, Wrap(g.revision + 1)), g, req, Wrap(g.revision + 1), |req.nodes|);
        }
      case RemoveNamed(_, _, _) =>
    }
  }

  lemma {:induction false} BatchNext(db: Db, g: Group, req: RemovalRequest, revision: int, count: nat)
    requires count <= |req.nodes|
    ensures AddRemovals(db, g, req, revision, count).next == db.next + count
  {
    if count > 0 { BatchNext(db, g, req, revision, count - 1); }
  }

  lemma LogOnlyAdmitted(w: World, e: Event, g: string, revision: int)
    requires !e.Admit?
    ensures Raised(Apply(w, e).log, g, revision) == Raised(w.log, g, revision)
  {
    hide Raised, RemoveBatch, RemoveOne, Perform, Permits, Locked, LockedByOther, OpensFinalize, Dispatch, Returned, TopologyFree,
      CreatePool, CreateGroup, UpdateTemplate, Claimable, Claim;
    match e {
      case RemoveMany(cluster, req) =>
        if Apply(w, e).log != w.log { RaisedAppend(w.log, Apply(w, e).log[|w.log|], g, revision); }
      case RemoveNamed(cluster, expected, r) =>
        if Apply(w, e).log != w.log { RaisedAppend(w.log, Apply(w, e).log[|w.log|], g, revision); }
      case _ =>
    }
  }

  lemma StampStep(w: World, e: Event, g: string, revision: int)
    requires Safe(w) && Stamped(w.db, g, revision) == Raised(w.log, g, revision)
    ensures Stamped(Apply(w, e).db, g, revision) == Raised(Apply(w, e).log, g, revision)
  {
    hide Safe, Sound, Stamped, Raised, Admits, ApplyRemoveMany, ApplyRemoveNamed, ApplyTake, ApplyIssue, ApplyOpen, ApplyLift,
      ApplyConfirm, ApplyExtend, ApplyReadHost, CreatePool, CreateGroup, UpdateTemplate, TopologyFree, Returned, SetTarget,
      GroupsAdvance, Recorded, Linked, RowsAdvance;
    SafeSound(w);
    if e.Admit? {
      if Admits(w.db, e.req, e.obs, e.pick) { AdmitStamps(w, e.req, e.obs, e.pick, g, revision); }
    } else {
      StepSafe(w, e);
      HostKeysStay(w, e);
      LogOnlyAdmitted(w, e, g, revision);
      SafeLinked(w);
      SafeLinked(Apply(w, e));
      hide Apply;
      StampsSame(w.db, Apply(w, e).db, g, revision);
    }
  }

  // The operations stamped with a revision number exactly what the change with that revision
  // raised the target by.
  lemma {:induction false} OneOperationPerAddedNode(es: seq<Event>, g: string, revision: int)
    ensures Stamped(Run(START, es).db, g, revision) == Raised(Run(START, es).log, g, revision)
  {
    hide Safe, Apply;
    if es != [] {
      hide Stamped, Raised;
      OneOperationPerAddedNode(es[..|es| - 1], g, revision);
      Reachable(es[..|es| - 1]);
      StampStep(Run(START, es[..|es| - 1]), es[|es| - 1], g, revision);
    }
  }
}
