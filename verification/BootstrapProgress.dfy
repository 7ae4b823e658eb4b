// Bootstrap progress: with an executor whose steps and validation succeed, every complete RunOnce
// call of a worker that keeps its lease advances the operation by exactly one phase, so every
// sequence of as many calls as phases are left ends at Ready.

module BootstrapProgress {
  import opened Options
  import opened Bootstrap

  // ---------- A complete call ----------

  // The executor reports the cluster's endpoint and certificate in one step and nothing elsewhere.
  function Found(next: Phase, x: Discovery): Discovery {
    if next.ControlPlaneInitializing? then x else Discovery("", "")
  }

  // The worker's own steps, its renewals and the passing of time, in any order.
  predicate Faithful(w: World, e: Event, k: nat, x: Discovery) {
    match e
    case Tick(_) => true
    case Read(j) => j == k
    case StepDone(j, found) => j == k && (k in w.workers && w.workers[k].Working? ==> found == Found(w.workers[k].next, x))
    case Store(j) => j == k
    case Validated(j) => j == k
    case Advance(j) => j == k
    case Renew(j, d) => j == k && d > 0
    case Release(j) => j == k
    case _ => false
  }

  predicate LeaseKept(w: World, k: nat) {
    k in w.workers ==> w.lease.Some? && w.lease.value.until > w.clock
  }

  ghost predicate Ongoing(w: World, es: seq<Event>, owner: string, d: int, x: Discovery) {
    |es| > 0 && es[0].Claim? && es[0] == Claim(es[0].worker, owner, d) &&
    (forall i :: 0 < i < |es| ==> Faithful(Run(w, es[..i]), es[i], es[0].worker, x)) &&
    (forall i :: 0 < i <= |es| ==> LeaseKept(Run(w, es[..i]), es[0].worker))
  }

  ghost predicate CompleteCall(w: World, es: seq<Event>, owner: string, d: int, x: Discovery) {
    Ongoing(w, es, owner, d, x) && Run(w, es).workers == map[]
  }

  // ---------- Where a call stands ----------

  predicate Compatible(found: Discovery, x: Discovery) {
    x.endpoint != "" && x.ca != "" && found.endpoint in {"", x.endpoint} && found.ca in {"", x.ca}
  }

  // Nobody works on the operation, it can be claimed, it is not finished, and no operator has
  // touched the membership.
  ghost predicate Resting(w: World, x: Discovery) {
    Safe(w) && w.workers == map[] && !w.phase.Ready? && w.member == Awaiting && Compatible(w.discovery, x) &&
    (w.state.Pending? || (w.state.Leased? && (w.lease.None? || w.lease.value.until <= w.clock)))
  }

  // The phase after p, spelled out.
  function Following(p: Phase): Phase {
    match p
    case Requested => InfrastructureProvisioning
    case InfrastructureProvisioning => ControlPlaneInitializing
    case ControlPlaneInitializing => NetworkInstalling
    case NetworkInstalling => DominatorInstalling
    case DominatorInstalling => Validating
    case Validating => Ready
    case Ready => Ready
  }

  lemma FollowingIsNext(p: Phase)
    ensures BootstrapNext(p) == if p.Ready? then None else Some(Following(p))
  {
  }

  predicate Placed(pc: Pc, p: Phase, w: World, x: Discovery) {
    match pc
    case Claimed(_) => w.phase == p
    case Working(_, next) => w.phase == p && next == Following(p) && !p.Validating?
    case Stepped(_, next, found) => w.phase == p && next == Following(p) && !p.Validating? && found == Found(next, x)
    case Recorded(_, next) => w.phase == p && next == Following(p) && !p.Validating?
    case Judging(_) => w.phase == p && p.Validating?
    case Judged(_) => w.phase == p && p.Validating?
    case Releasing(_) => w.phase == Following(p) && !p.Validating?
  }

  ghost predicate InCall(w: World, k: nat, p: Phase, owner: string, x: Discovery) {
    w.member == (if w.phase.Ready? then Granted else Awaiting) && Compatible(w.discovery, x) &&
    if w.workers == map[] then
      w.phase == Following(p) && (w.phase.Ready? || (w.state.Pending? && w.lease.None?))
    else
      k in w.workers && w.workers == map[k := w.workers[k]] && !w.phase.Ready? &&
      w.state.Leased? && w.lease.Some? && w.lease.value.owner == owner == w.workers[k].t.owner && w.fence == w.workers[k].t.fence &&
      Placed(w.workers[k], p, w, x)
  }

  // How far a worker is from the end of its call.
  function Togo(w: World, k: nat): nat {
    if k !in w.workers then 0
    else
      match w.workers[k]
      case Claimed(_) => 6
      case Working(_, _) => 5
      case Stepped(_, _, _) => 4
      case Recorded(_, _) => 3
      case Judging(_) => 3
      case Judged(_) => 2
      case Releasing(_) => 1
  }

  function NextStep(w: World, k: nat, x: Discovery): Event
    requires k in w.workers
  {
    match w.workers[k]
    case Claimed(_) => Read(k)
    case Working(_, next) => StepDone(k, Found(next, x))
    case Stepped(_, _, _) => Store(k)
    case Recorded(_, _) => Advance(k)
    case Judging(_) => Validated(k)
    case Judged(_) => Advance(k)
    case Releasing(_) => Release(k)
  }

  // Still on course, no further from the end, and nearer after the worker's own next step, which
  // neither takes time nor touches a lease that is still held.
  ghost predicate Onward(w: World, w': World, e: Event, k: nat, p: Phase, owner: string, x: Discovery)
    requires k in w.workers
  {
    InCall(w', k, p, owner, x) && Togo(w', k) <= Togo(w, k) &&
    (e == NextStep(w, k, x) ==> Togo(w', k) < Togo(w, k) && w'.clock == w.clock && (k in w'.workers ==> w'.lease == w.lease))
  }

  lemma Alone(w: World, k: nat, pc: Pc)
    requires k in w.workers && w.workers == map[k := w.workers[k]]
    ensures Goto(w, k, pc).workers == map[k := pc] && Stop(w, k).workers == map[]
  {
  }

  lemma ReadOnward(w: World, k: nat, p: Phase, owner: string, x: Discovery)
    requires InCall(w, k, p, owner, x) && k in w.workers && !p.Ready?
    ensures Onward(w, ApplyRead(w, k), Read(k), k, p, owner, x)
  {
    hide BootstrapNext;
    FollowingIsNext(p);
    Alone(w, k, Judging(w.workers[k].t));
    Alone(w, k, Working(w.workers[k].t, Following(p)));
  }

  lemma StepOnward(w: World, k: nat, found: Discovery, p: Phase, owner: string, x: Discovery)
    requires InCall(w, k, p, owner, x) && k in w.workers && (w.workers[k].Working? ==> found == Found(w.workers[k].next, x))
    ensures Onward(w, ApplyStepDone(w, k, found), StepDone(k, found), k, p, owner, x)
  {
    if w.workers[k].Working? { Alone(w, k, Stepped(w.workers[k].t, w.workers[k].next, found)); }
  }

  lemma StoreOnward(w: World, k: nat, p: Phase, owner: string, x: Discovery)
    requires Safe(w) && InCall(w, k, p, owner, x) && k in w.workers && LeaseKept(w, k)
    ensures Onward(w, ApplyStore(w, k), Store(k), k, p, owner, x)
  {
    hide Progress, Index;
    if w.workers[k].Stepped? {
      Alone(w, k, Recorded(w.workers[k].t, w.workers[k].next));
      ClusterNotReady(w);
    }
  }

  lemma ClusterNotReady(w: World)
    requires Safe(w) && !w.phase.Ready?
    ensures !w.clusterReady
  {
  }

  lemma ValidatedOnward(w: World, k: nat, p: Phase, owner: string, x: Discovery)
    requires InCall(w, k, p, owner, x) && k in w.workers
    ensures Onward(w, ApplyValidated(w, k), Validated(k), k, p, owner, x)
  {
    if w.workers[k].Judging? { Alone(w, k, Judged(w.workers[k].t)); }
  }

  lemma AdvanceOnward(w: World, k: nat, p: Phase, owner: string, x: Discovery)
    requires InCall(w, k, p, owner, x) && k in w.workers && LeaseKept(w, k) && !p.Ready?
    ensures Onward(w, ApplyAdvance(w, k), Advance(k), k, p, owner, x)
  {
    hide BootstrapNext;
    FollowingIsNext(p);
    Alone(w, k, Releasing(w.workers[k].t));
  }

  lemma TickOnward(w: World, d: nat, k: nat, p: Phase, owner: string, x: Discovery)
    requires InCall(w, k, p, owner, x) && k in w.workers
    ensures Onward(w, w.(clock := w.clock + d), Tick(d), k, p, owner, x)
  {
  }

  lemma RenewOnward(w: World, k: nat, d: int, p: Phase, owner: string, x: Discovery)
    requires InCall(w, k, p, owner, x) && k in w.workers
    ensures Onward(w, ApplyRenew(w, k, d), Renew(k, d), k, p, owner, x)
  {
    hide Holds;
  }

  lemma ReleaseOnward(w: World, k: nat, p: Phase, owner: string, x: Discovery)
    requires InCall(w, k, p, owner, x) && k in w.workers && LeaseKept(w, k) && !p.Ready?
    ensures Onward(w, ApplyRelease(w, k), Release(k), k, p, owner, x)
  {
    Alone(w, k, w.workers[k]);
  }

  lemma CallStep(w: World, e: Event, k: nat, p: Phase, owner: string, x: Discovery)
    requires Safe(w) && InCall(w, k, p, owner, x) && k in w.workers && LeaseKept(w, k) && !p.Ready? && Faithful(w, e, k, x)
    ensures Onward(w, Apply(w, e), e, k, p, owner, x)
  {
    hide Safe, InCall, Onward, LeaseKept, ApplyRead, ApplyStepDone, ApplyStore, ApplyValidated, ApplyAdvance, ApplyRenew, ApplyRelease;
    match e {
      case Tick(d) => TickOnward(w, d, k, p, owner, x);
      case Renew(_, d) => RenewOnward(w, k, d, p, owner, x);
      case Release(_) => ReleaseOnward(w, k, p, owner, x);
      case Read(_) => ReadOnward(w, k, p, owner, x);
      case StepDone(_, found) => StepOnward(w, k, found, p, owner, x);
      case Store(_) => StoreOnward(w, k, p, owner, x);
      case Validated(_) => ValidatedOnward(w, k, p, owner, x);
      case Advance(_) => AdvanceOnward(w, k, p, owner, x);
    }
  }

  lemma IdleStep(w: World, e: Event, k: nat, p: Phase, owner: string, x: Discovery)
    requires InCall(w, k, p, owner, x) && w.workers == map[] && Faithful(w, e, k, x)
    ensures InCall(Apply(w, e), k, p, owner, x) && Apply(w, e).workers == map[]
  {
    hide BootstrapNext, MayDiscover;
  }

  lemma ClaimStarts(w: World, k: nat, owner: string, d: int, x: Discovery)
    requires Resting(w, x) && owner != "" && d > 0
    ensures var w' := Apply(w, Claim(k, owner, d));
      InCall(w', k, w.phase, owner, x) && k in w'.workers && w'.clock == w.clock && w'.lease == Some(Lease(owner, w.clock + d))
  {
    hide Safe;
  }

  // ---------- Every complete call ----------

  lemma {:induction false} RunKeeps(w: World, es: seq<Event>)
    requires Safe(w)
    ensures Safe(Run(w, es))
  {
    hide Safe, Apply, Moves;
    if es != [] {
      RunKeeps(w, es[..|es| - 1]);
      StepSafe(Run(w, es[..|es| - 1]), es[|es| - 1]);
    }
  }

  lemma Shorter(w: World, es: seq<Event>, owner: string, d: int, x: Discovery)
    requires Ongoing(w, es, owner, d, x) && |es| > 1
    ensures var was := es[..|es| - 1];
      Ongoing(w, was, owner, d, x) && was[0] == es[0] && Run(w, es) == Apply(Run(w, was), es[|es| - 1]) &&
      Faithful(Run(w, was), es[|es| - 1], es[0].worker, x) && LeaseKept(Run(w, was), es[0].worker)
  {
    hide Apply, Faithful, LeaseKept;
    var was := es[..|es| - 1];
    forall i | 0 < i <= |was| ensures was[..i] == es[..i] {}
  }

  lemma {:induction false} OnCourse(w: World, es: seq<Event>, owner: string, d: int, x: Discovery)
    requires Resting(w, x) && owner != "" && d > 0 && Ongoing(w, es, owner, d, x)
    ensures Safe(Run(w, es)) && InCall(Run(w, es), es[0].worker, w.phase, owner, x)
    decreases |es|
  {
    hide Apply, Safe, InCall, LeaseKept, Faithful, Onward;
    RunKeeps(w, es);
    var k := es[0].worker;
    if |es| == 1 {
      assert es[..0] == [];
      ClaimStarts(w, k, owner, d, x);
    } else {
      var was := es[..|es| - 1];
      Shorter(w, es, owner, d, x);
      OnCourse(w, was, owner, d, x);
      StepInCall(Run(w, was), es[|es| - 1], k, w.phase, owner, x);
    }
  }

  lemma StepInCall(w: World, e: Event, k: nat, p: Phase, owner: string, x: Discovery)
    requires Safe(w) && InCall(w, k, p, owner, x) && LeaseKept(w, k) && !p.Ready? && Faithful(w, e, k, x)
    ensures InCall(Apply(w, e), k, p, owner, x)
  {
    hide Apply, Safe, LeaseKept, Faithful, Placed, Compatible;
    if w.workers == map[] { IdleStep(w, e, k, p, owner, x); } else { CallStep(w, e, k, p, owner, x); }
  }

  // Every complete call, whatever delays and renewals it met, moves the operation to the next phase
  // and leaves it at rest again or finished.
  lemma EveryCallAdvances(w: World, es: seq<Event>, owner: string, d: int, x: Discovery)
    requires Resting(w, x) && owner != "" && d > 0 && CompleteCall(w, es, owner, d, x)
    ensures Run(w, es).phase == Following(w.phase)
    ensures if w.phase.Validating? then Finished(Run(w, es)) && Run(w, es).discovery == x else Resting(Run(w, es), x)
  {
    hide Apply, Run, Safe, Ongoing, Compatible;
    OnCourse(w, es, owner, d, x);
    if w.phase.Validating? { ReadyFinished(Run(w, es), x); }
  }

  // The cluster and its zone are ready, the membership approved and the operation succeeded.
  predicate Finished(w: World) {
    w.phase.Ready? && w.clusterReady && w.zoneReady && w.member == Granted && w.state.Succeeded? && w.workers == map[]
  }

  lemma ReadyFinished(w: World, x: Discovery)
    requires Safe(w) && w.phase.Ready? && w.member == Granted && w.workers == map[] && Compatible(w.discovery, x)
    ensures Finished(w) && w.discovery == x
  {
  }

  // One call after another.
  ghost predicate Calls(w: World, calls: seq<seq<Event>>, owner: string, d: int, x: Discovery)
    decreases |calls|
  {
    calls == [] || (CompleteCall(w, calls[0], owner, d, x) && Calls(Run(w, calls[0]), calls[1..], owner, d, x))
  }

  function Flatten(calls: seq<seq<Event>>): seq<Event> {
    if calls == [] then [] else calls[0] + Flatten(calls[1..])
  }

  lemma {:induction false} RunSplit(w: World, es: seq<Event>, more: seq<Event>)
    ensures Run(w, es + more) == Run(Run(w, es), more)
  {
    hide Apply;
    if more == [] {
      assert es + more == es;
    } else {
      assert (es + more)[..|es + more| - 1] == es + more[..|more| - 1];
      RunSplit(w, es, more[..|more| - 1]);
    }
  }

  // However far a crash left it: every sequence of as many calls as phases are left ends finished.
  lemma {:induction false} EveryBootstrapFinishes(w: World, calls: seq<seq<Event>>, owner: string, d: int, x: Discovery)
    requires Resting(w, x) && owner != "" && d > 0 && Calls(w, calls, owner, d, x) && |calls| == 6 - Index(w.phase)
    ensures Finished(Run(w, Flatten(calls))) && Run(w, Flatten(calls)).discovery == x
    decreases |calls|
  {
    hide Apply, Resting, Finished, CompleteCall;
    RestingPhase(w, x);
    EveryCallAdvances(w, calls[0], owner, d, x);
    FollowingIndex(w.phase);
    var next := Run(w, calls[0]);
    RunSplit(w, calls[0], Flatten(calls[1..]));
    if !w.phase.Validating? { EveryBootstrapFinishes(next, calls[1..], owner, d, x); }
  }

  lemma RestingPhase(w: World, x: Discovery)
    requires Resting(w, x)
    ensures !w.phase.Ready? && Index(w.phase) < 6
  {
  }

  lemma FollowingIndex(p: Phase)
    requires !p.Ready?
    ensures Index(Following(p)) == Index(p) + 1 && (Index(p) == 5 ==> p.Validating?)
  {
  }

  // ---------- Calls exist ----------

  lemma Longer(w: World, es: seq<Event>, e: Event, owner: string, d: int, x: Discovery)
    requires Ongoing(w, es, owner, d, x) && Faithful(Run(w, es), e, es[0].worker, x) && LeaseKept(Apply(Run(w, es), e), es[0].worker)
    ensures Ongoing(w, es + [e], owner, d, x) && Run(w, es + [e]) == Apply(Run(w, es), e)
  {
    hide Apply, Faithful, LeaseKept;
    var all := es + [e];
    forall i | 0 < i <= |es| ensures all[..i] == es[..i] {}
    assert all[..|all| - 1] == es && all[..|all|] == all && es[..|es|] == es;
  }

  predicate Fresh(w0: World, w: World, k: nat, owner: string, d: int) {
    w.clock == w0.clock && (k in w.workers ==> w.lease == Some(Lease(owner, w0.clock + d)))
  }

  lemma NextIsFaithful(w: World, k: nat, x: Discovery)
    requires k in w.workers
    ensures Faithful(w, NextStep(w, k, x), k, x)
  {
  }

  lemma {:induction false} CallEnds(w: World, es: seq<Event>, owner: string, d: int, x: Discovery) returns (all: seq<Event>)
    requires Resting(w, x) && owner != "" && d > 0 && Ongoing(w, es, owner, d, x) && Fresh(w, Run(w, es), es[0].worker, owner, d)
    ensures CompleteCall(w, all, owner, d, x)
    decreases Togo(Run(w, es), es[0].worker)
  {
    hide Apply, Run, Safe, InCall, Faithful, Togo, NextStep, Ongoing;
    OngoingShape(w, es, owner, d, x);
    OnCourse(w, es, owner, d, x);
    var k, mid := es[0].worker, Run(w, es);
    if k !in mid.workers {
      IdleInCall(mid, k, w.phase, owner, x);
      all := es;
    } else {
      var e := NextStep(mid, k, x);
      NextIsFaithful(mid, k, x);
      CallStep(mid, e, k, w.phase, owner, x);
      Longer(w, es, e, owner, d, x);
      all := CallEnds(w, es + [e], owner, d, x);
    }
  }

  lemma OngoingShape(w: World, es: seq<Event>, owner: string, d: int, x: Discovery)
    requires Ongoing(w, es, owner, d, x)
    ensures |es| > 0 && es[0].Claim?
  {
  }

  lemma IdleInCall(w: World, k: nat, p: Phase, owner: string, x: Discovery)
    requires InCall(w, k, p, owner, x) && k !in w.workers
    ensures w.workers == map[]
  {
  }

  lemma SomeCall(w: World, k: nat, owner: string, d: int, x: Discovery) returns (es: seq<Event>)
    requires Resting(w, x) && owner != "" && d > 0
    ensures CompleteCall(w, es, owner, d, x)
  {
    hide Apply, Resting, InCall;
    var e := Claim(k, owner, d);
    ClaimStarts(w, k, owner, d, x);
    var one := [e];
    assert one[..0] == [] && one[..1] == one;
    assert Run(w, one) == Apply(w, e);
    assert LeaseKept(Run(w, one), k);
    es := CallEnds(w, one, owner, d, x);
  }

  lemma {:induction false} SomeCalls(w: World, k: nat, owner: string, d: int, x: Discovery) returns (calls: seq<seq<Event>>)
    requires Resting(w, x) && owner != "" && d > 0
    ensures Calls(w, calls, owner, d, x) && |calls| == 6 - Index(w.phase)
    decreases 6 - Index(w.phase)
  {
    hide Apply, Run, Resting, Finished, CompleteCall;
    RestingPhase(w, x);
    FollowingIndex(w.phase);
    var es := SomeCall(w, k, owner, d, x);
    EveryCallAdvances(w, es, owner, d, x);
    var rest := [];
    if !w.phase.Validating? { rest := SomeCalls(Run(w, es), k, owner, d, x); }
    calls := [es] + rest;
    assert calls[1..] == rest;
  }

  // From the request, and from every state a run left at rest, Ready can be reached.
  lemma EveryBootstrapCanFinish(es: seq<Event>, k: nat, owner: string, d: int, x: Discovery) returns (more: seq<Event>)
    requires Resting(Run(START, es), x) && owner != "" && d > 0
    ensures Finished(Run(START, es + more))
  {
    hide Apply, Run, Resting, Finished, Calls;
    var calls := SomeCalls(Run(START, es), k, owner, d, x);
    EveryBootstrapFinishes(Run(START, es), calls, owner, d, x);
    more := Flatten(calls);
    RunSplit(START, es, more);
  }

  lemma StartRests(x: Discovery)
    requires x.endpoint != "" && x.ca != ""
    ensures Resting(START, x)
  {
  }
}
