// Cluster bootstrap (internal/capacity/bootstrap.go, bootstrap_phases.go, bootstrap_discovery.go,
// bootstrap_worker.go and BootstrapPhase in catalog.go): one durable create_cluster operation whose
// phase is advanced by competing workers under fenced leases. Workers crash and stall anywhere.

module Bootstrap {
  import opened Options

  datatype Phase =
    | Requested | InfrastructureProvisioning | ControlPlaneInitializing | NetworkInstalling
    | DominatorInstalling | Validating | Ready

  const SEQUENCE: seq<Phase> := [
    Requested, InfrastructureProvisioning, ControlPlaneInitializing, NetworkInstalling,
    DominatorInstalling, Validating, Ready]

  function Index(p: Phase): nat {
    match p
    case Requested => 0
    case InfrastructureProvisioning => 1
    case ControlPlaneInitializing => 2
    case NetworkInstalling => 3
    case DominatorInstalling => 4
    case Validating => 5
    case Ready => 6
  }

  // bootstrapNext scans the sequence for the phase; the one after it is next.
  function NextFrom(p: Phase, i: nat): (next: Option<Phase>)
    requires i <= Index(p)
    ensures next == if p.Ready? then None else Some(SEQUENCE[Index(p) + 1])
    decreases |SEQUENCE| - i
  {
    if i + 1 >= |SEQUENCE| then None
    else if SEQUENCE[i] == p then Some(SEQUENCE[i + 1])
    else NextFrom(p, i + 1)
  }

  function BootstrapNext(p: Phase): Option<Phase> { NextFrom(p, 0) }

  datatype OpState = Pending | Leased | Succeeded
  datatype Lease = Lease(owner: string, until: int)
  datatype Discovery = Discovery(endpoint: string, ca: string)
  datatype Token = Token(owner: string, fence: int)

  // cluster_zones: initializing and pending as the bootstrap request left it, ready and approved, or
  // any other pair an operator has written.
  datatype Member = Awaiting | Granted | Otherwise

  // Where a worker stands in RunOnce.
  datatype Pc =
    | Claimed(t: Token)
    | Working(t: Token, next: Phase)
    | Stepped(t: Token, next: Phase, found: Discovery)
    | Recorded(t: Token, next: Phase)
    | Judging(t: Token)
    | Judged(t: Token)
    | Releasing(t: Token)

  // The last two fields are history: executor steps that succeeded, in order, and whether a
  // validation has succeeded.
  datatype World = World(
    clock: int, state: OpState, lease: Option<Lease>, fence: int, phase: Phase, discovery: Discovery,
    clusterReady: bool, zoneReady: bool, member: Member,
    workers: map<nat, Pc>, steps: seq<Phase>, validated: bool)

  const START: World := World(0, Pending, None, 0, Requested, Discovery("", ""), false, false, Awaiting, map[], [], false)

  datatype Event =
    | Tick(elapsed: nat)
    | Claim(worker: nat, owner: string, duration: int)
    | Read(worker: nat)
    | StepDone(worker: nat, found: Discovery)
    | Store(worker: nat)
    | Validated(worker: nat)
    | Advance(worker: nat)
    | Renew(worker: nat, duration: int)
    | Release(worker: nat)
    | Crash(worker: nat)
    | Operate(membership: Member)

  // The fence every write carries.
  predicate Holds(w: World, t: Token) {
    w.state.Leased? && w.lease.Some? && w.lease.value.owner == t.owner && w.lease.value.until > w.clock && w.fence == t.fence
  }

  function Goto(w: World, k: nat, pc: Pc): World { w.(workers := w.workers[k := pc]) }
  function Stop(w: World, k: nat): World { w.(workers := w.workers - {k}) }

  function ApplyClaim(w: World, k: nat, owner: string, d: int): World {
    if k in w.workers || owner == "" || d <= 0 ||
       !(w.state.Pending? || (w.state.Leased? && (w.lease.None? || w.lease.value.until <= w.clock))) then w
    else Goto(w, k, Claimed(Token(owner, w.fence + 1))).(state := Leased, lease := Some(Lease(owner, w.clock + d)), fence := w.fence + 1)
  }

  // currentPhase is read without a lock.
  function ApplyRead(w: World, k: nat): World {
    if k !in w.workers || !w.workers[k].Claimed? then w
    else if w.phase.Validating? then Goto(w, k, Judging(w.workers[k].t))
    else if BootstrapNext(w.phase).None? then Stop(w, k)
    else Goto(w, k, Working(w.workers[k].t, BootstrapNext(w.phase).value))
  }

  // The executor's step succeeded, whatever has happened to the lease meanwhile.
  function ApplyStepDone(w: World, k: nat, found: Discovery): World {
    if k !in w.workers || !w.workers[k].Working? then w
    else Goto(w, k, Stepped(w.workers[k].t, w.workers[k].next, found)).(steps := w.steps + [w.workers[k].next])
  }

  // SetClusterDiscovery: fenced, in one phase only, and only onto empty or equal values.
  predicate MayDiscover(w: World, t: Token, found: Discovery) {
    found.endpoint != "" && found.ca != "" && Holds(w, t) && w.phase.InfrastructureProvisioning? && !w.clusterReady &&
    (w.discovery.endpoint == "" || w.discovery.endpoint == found.endpoint) && (w.discovery.ca == "" || w.discovery.ca == found.ca)
  }

  function ApplyStore(w: World, k: nat): World {
    if k !in w.workers || !w.workers[k].Stepped? then w
    else
      var pc := w.workers[k];
      if pc.next.ControlPlaneInitializing? then
        if MayDiscover(w, pc.t, pc.found) then Goto(w, k, Recorded(pc.t, pc.next)).(discovery := pc.found) else Stop(w, k)
      else if pc.next.InfrastructureProvisioning? || pc.next.DominatorInstalling? || pc.found == Discovery("", "") then
        Goto(w, k, Recorded(pc.t, pc.next))
      else Stop(w, k)
  }

  function ApplyValidated(w: World, k: nat): World {
    if k !in w.workers || !w.workers[k].Judging? then w
    else Goto(w, k, Judged(w.workers[k].t)).(validated := true)
  }

  // BootstrapPhase: the phase is read again under the row lock.
  function ApplyAdvance(w: World, k: nat): World {
    if k !in w.workers || !(w.workers[k].Recorded? || w.workers[k].Judged?) then w
    else
      var pc := w.workers[k];
      var next := if pc.Judged? then Ready else pc.next;
      if !Holds(w, pc.t) || BootstrapNext(w.phase) != Some(next) || (next.Ready? && !pc.Judged?) then Stop(w, k)
      else if !next.Ready? then Goto(w.(phase := next), k, Releasing(pc.t))
      else if !w.member.Awaiting? then Stop(w, k)
      else Stop(w, k).(phase := Ready, state := Succeeded, lease := None, clusterReady := true, zoneReady := true, member := Granted)
  }

  function ApplyRenew(w: World, k: nat, d: int): World {
    if k in w.workers && d > 0 && Holds(w, w.workers[k].t) then w.(lease := Some(Lease(w.workers[k].t.owner, w.clock + d))) else w
  }

  function ApplyRelease(w: World, k: nat): World {
    if k !in w.workers || !w.workers[k].Releasing? then w
    else if Holds(w, w.workers[k].t) then Stop(w, k).(state := Pending, lease := None)
    else Stop(w, k)
  }

  function Apply(w: World, e: Event): World {
    match e
    case Tick(d) => w.(clock := w.clock + d)
    case Claim(k, owner, d) => ApplyClaim(w, k, owner, d)
    case Read(k) => ApplyRead(w, k)
    case StepDone(k, found) => ApplyStepDone(w, k, found)
    case Store(k) => ApplyStore(w, k)
    case Validated(k) => ApplyValidated(w, k)
    case Advance(k) => ApplyAdvance(w, k)
    case Renew(k, d) => ApplyRenew(w, k, d)
    case Release(k) => ApplyRelease(w, k)
    case Crash(k) => Stop(w, k)
    case Operate(m) => w.(member := m)
  }

  function Run(w: World, es: seq<Event>): World {
    if es == [] then w else Apply(Run(w, es[..|es| - 1]), es[|es| - 1])
  }

  // ---------- What every step keeps ----------

  // How far along the sequence the successes go, taken in order: 1, then 2 after it, and so on.
  function Progress(steps: seq<Phase>): nat {
    if steps == [] then 0
    else
      var before := Progress(steps[..|steps| - 1]);
      if Index(steps[|steps| - 1]) == before + 1 then before + 1 else before
  }

  lemma ProgressAppend(steps: seq<Phase>, p: Phase)
    ensures Progress(steps + [p]) == if Index(p) == Progress(steps) + 1 then Progress(steps) + 1 else Progress(steps)
  {
    assert (steps + [p])[..|steps + [p]| - 1] == steps;
  }

  predicate WorkerOk(w: World, pc: Pc) {
    pc.t.fence <= w.fence &&
    match pc
    case Working(_, next) => 1 <= Index(next) <= 5 && Index(next) <= Index(w.phase) + 1
    case Stepped(_, next, _) => 1 <= Index(next) <= 5 && Index(next) <= Progress(w.steps)
    case Recorded(_, next) =>
      1 <= Index(next) <= 5 && Index(next) <= Progress(w.steps) &&
      (next.ControlPlaneInitializing? ==> w.discovery.endpoint != "" && w.discovery.ca != "")
    case Judged(_) => w.validated
    case _ => true
  }

  predicate Safe(w: World) {
    (forall k :: k in w.workers ==> WorkerOk(w, w.workers[k])) &&
    Index(w.phase) <= Progress(w.steps) + (if w.phase.Ready? then 1 else 0) &&
    (w.phase.Ready? ==> w.validated && Progress(w.steps) >= 5) &&
    (w.clusterReady <==> w.phase.Ready?) && (w.zoneReady <==> w.phase.Ready?) &&
    (w.state.Succeeded? <==> w.phase.Ready?) &&
    (Index(w.phase) >= 2 ==> w.discovery.endpoint != "" && w.discovery.ca != "") &&
    (w.lease.Some? ==> w.state.Leased?)
  }

  // From one state to the next the phase stays or moves one step, fences rise, the successes and a
  // complete discovery stay.
  predicate Moves(w: World, w': World) {
    Index(w.phase) <= Index(w'.phase) <= Index(w.phase) + 1 && w.fence <= w'.fence && w.clock <= w'.clock &&
    |w.steps| <= |w'.steps| && w'.steps[..|w.steps|] == w.steps &&
    (w.discovery.endpoint != "" ==> w'.discovery.endpoint == w.discovery.endpoint) &&
    (w.discovery.ca != "" ==> w'.discovery.ca == w.discovery.ca)
  }

  lemma ClaimSafe(w: World, e: Event)
    requires Safe(w) && (e.Claim? || e.Renew? || e.Release? || e.Crash? || e.Tick? || e.Operate?)
    ensures Safe(Apply(w, e)) && Moves(w, Apply(w, e))
  {
    hide BootstrapNext, Progress, Index;
  }

  lemma ReadSafe(w: World, k: nat)
    requires Safe(w)
    ensures Safe(ApplyRead(w, k)) && Moves(w, ApplyRead(w, k))
  {
    hide Progress;
  }

  lemma StepDoneSafe(w: World, k: nat, found: Discovery)
    requires Safe(w)
    ensures Safe(ApplyStepDone(w, k, found)) && Moves(w, ApplyStepDone(w, k, found))
  {
    hide Progress, Index, BootstrapNext;
    if k in w.workers && w.workers[k].Working? { ProgressAppend(w.steps, w.workers[k].next); }
  }

  lemma PutSafe(w: World, k: nat, pc: Pc)
    requires Safe(w) && WorkerOk(w, pc)
    ensures Safe(Goto(w, k, pc)) && Moves(w, Goto(w, k, pc)) && Safe(Stop(w, k)) && Moves(w, Stop(w, k))
  {
    hide Progress, Index;
  }

  lemma DiscoverSafe(w: World, t: Token, found: Discovery)
    requires Safe(w) && MayDiscover(w, t, found)
    ensures Safe(w.(discovery := found)) && Moves(w, w.(discovery := found))
  {
    hide Progress, Index, Holds;
  }

  lemma StoreSafe(w: World, k: nat)
    requires Safe(w)
    ensures Safe(ApplyStore(w, k)) && Moves(w, ApplyStore(w, k))
  {
    hide Safe, Moves, MayDiscover, WorkerOk;
    if k in w.workers && w.workers[k].Stepped? {
      var pc := w.workers[k];
      SteppedOk(w, k);
      PutSafe(w, k, pc);
      if pc.next.ControlPlaneInitializing? && MayDiscover(w, pc.t, pc.found) {
        DiscoverSafe(w, pc.t, pc.found);
        var d := w.(discovery := pc.found);
        PutSafe(d, k, Recorded(pc.t, pc.next));
        MovesChain(w, d, Goto(d, k, Recorded(pc.t, pc.next)));
      } else if !pc.next.ControlPlaneInitializing? {
        PutSafe(w, k, Recorded(pc.t, pc.next));
      }
    } else {
      MovesSame(w);
    }
  }

  lemma SteppedOk(w: World, k: nat)
    requires Safe(w) && k in w.workers && w.workers[k].Stepped?
    ensures WorkerOk(w, w.workers[k])
    ensures var pc := w.workers[k];
      (!pc.next.ControlPlaneInitializing? ==> WorkerOk(w, Recorded(pc.t, pc.next))) &&
      (MayDiscover(w, pc.t, pc.found) ==> WorkerOk(w.(discovery := pc.found), Recorded(pc.t, pc.next)))
  {
    hide Progress, Index, Holds;
  }

  lemma MovesSame(w: World)
    ensures Moves(w, w)
  {
  }

  lemma MovesChain(a: World, b: World, c: World)
    requires Moves(a, b) && Moves(b, c) && b.phase == c.phase
    ensures Moves(a, c)
  {
  }

  lemma ValidatedSafe(w: World, k: nat)
    requires Safe(w)
    ensures Safe(ApplyValidated(w, k)) && Moves(w, ApplyValidated(w, k))
  {
    hide Progress, Index, BootstrapNext;
  }

  lemma PhaseSafe(w: World, k: nat)
    requires Safe(w) && k in w.workers && w.workers[k].Recorded? && BootstrapNext(w.phase) == Some(w.workers[k].next)
    ensures var d := w.(phase := w.workers[k].next); Safe(d) && Moves(w, d) && !w.workers[k].next.Ready?
  {
    hide Progress;
    assert WorkerOk(w, w.workers[k]);
  }

  lemma ReadySafe(w: World, k: nat)
    requires Safe(w) && k in w.workers && w.workers[k].Judged? && BootstrapNext(w.phase) == Some(Ready)
    ensures var d := Stop(w, k).(phase := Ready, state := Succeeded, lease := None, clusterReady := true, zoneReady := true, member := Granted);
      Safe(d) && Moves(w, d)
  {
    hide Progress;
    assert WorkerOk(w, w.workers[k]);
  }

  lemma AdvanceSafe(w: World, k: nat)
    requires Safe(w)
    ensures Safe(ApplyAdvance(w, k)) && Moves(w, ApplyAdvance(w, k))
  {
    hide Safe, Moves, Progress, Index, WorkerOk, Holds, BootstrapNext;
    MovesSame(w);
    if k in w.workers && (w.workers[k].Recorded? || w.workers[k].Judged?) {
      var pc := w.workers[k];
      AnyOk(w, k);
      PutSafe(w, k, pc);
      if pc.Recorded? && BootstrapNext(w.phase) == Some(pc.next) {
        PhaseSafe(w, k);
        var d := w.(phase := pc.next);
        AnyOk(d, k);
        ReleasingOk(d, pc);
        PutSafe(d, k, Releasing(pc.t));
        MovesChain(w, d, Goto(d, k, Releasing(pc.t)));
      } else if pc.Judged? && BootstrapNext(w.phase) == Some(Ready) {
        ReadySafe(w, k);
      }
    }
  }

  lemma AnyOk(w: World, k: nat)
    requires Safe(w) && k in w.workers
    ensures WorkerOk(w, w.workers[k])
  {
  }

  lemma ReleasingOk(w: World, pc: Pc)
    requires WorkerOk(w, pc)
    ensures WorkerOk(w, Releasing(pc.t))
  {
  }

  lemma StepSafe(w: World, e: Event)
    requires Safe(w)
    ensures Safe(Apply(w, e)) && Moves(w, Apply(w, e))
  {
    hide Safe, Moves, ApplyClaim, ApplyRead, ApplyStepDone, ApplyStore, ApplyValidated, ApplyAdvance, ApplyRenew, ApplyRelease;
    match e {
      case Read(k) => ReadSafe(w, k);
      case StepDone(k, found) => StepDoneSafe(w, k, found);
      case Store(k) => StoreSafe(w, k);
      case Validated(k) => ValidatedSafe(w, k);
      case Advance(k) => AdvanceSafe(w, k);
      case _ => ClaimSafe(w, e);
    }
  }

  lemma {:induction false} RunSafe(es: seq<Event>)
    ensures Safe(Run(START, es))
  {
    hide Apply;
    if es != [] {
      RunSafe(es[..|es| - 1]);
      StepSafe(Run(START, es[..|es| - 1]), es[|es| - 1]);
    }
  }

  // ---------- Main results ----------

  // In every run, with any crashes and competing workers, the phase stays or moves exactly one
  // step along the sequence.
  lemma PhaseMovesOneStep(es: seq<Event>, e: Event)
    ensures var p, p' := Run(START, es).phase, Apply(Run(START, es), e).phase;
      p' == p || BootstrapNext(p) == Some(p')
  {
    hide Run, Apply;
    RunSafe(es);
    StepSafe(Run(START, es), e);
    NextIndex(Run(START, es).phase, Apply(Run(START, es), e).phase);
  }

  lemma NextIndex(p: Phase, q: Phase)
    ensures Index(q) == Index(p) ==> p == q
    ensures Index(q) == Index(p) + 1 ==> BootstrapNext(p) == Some(q)
  {
  }

  // At phase p every step up to p has succeeded, each after the one before it.
  lemma EarlierStepsSucceeded(es: seq<Event>, n: nat) returns (i: nat)
    requires 1 <= n <= Index(Run(START, es).phase) && n <= 5
    ensures var steps := Run(START, es).steps;
      i < |steps| && Index(steps[i]) == n && Progress(steps[..i]) == n - 1
  {
    hide Run;
    RunSafe(es);
    i := PositionOf(Run(START, es).steps, n);
  }

  lemma {:induction false} PositionOf(steps: seq<Phase>, n: nat) returns (i: nat)
    requires 1 <= n <= Progress(steps)
    ensures i < |steps| && Index(steps[i]) == n && Progress(steps[..i]) == n - 1
  {
    var front := steps[..|steps| - 1];
    if n <= Progress(front) {
      i := PositionOf(front, n);
      assert front[..i] == steps[..i];
    } else {
      i := |steps| - 1;
    }
  }

  // Cluster and zone become ready, and the membership ready and approved by anything but an operator,
  // only together, from Validating and an untouched membership, in a transaction of a worker whose
  // lease is live and whose validation succeeded.
  lemma ReadyOnlyAfterValidation(es: seq<Event>, e: Event)
    requires var w, w' := Run(START, es), Apply(Run(START, es), e);
      (!w.clusterReady && w'.clusterReady) || (!w.zoneReady && w'.zoneReady) || (!w.member.Granted? && w'.member.Granted? && !e.Operate?)
    ensures var w, w' := Run(START, es), Apply(Run(START, es), e);
      e.Advance? && e.worker in w.workers && w.workers[e.worker].Judged? &&
      w.state == Leased && w.lease.Some? && w.lease.value.owner == w.workers[e.worker].t.owner &&
      w.lease.value.until > w.clock && w.fence == w.workers[e.worker].t.fence &&
      w.phase.Validating? && w.member.Awaiting? && w.validated && Progress(w.steps) >= 5 &&
      w'.phase.Ready? && w'.state.Succeeded? && w'.clusterReady && w'.zoneReady && w'.member.Granted?
  {
    hide Run, Progress;
    RunSafe(es);
    var w := Run(START, es);
    if e.Advance? && e.worker in w.workers { assert WorkerOk(w, w.workers[e.worker]); }
  }

  // Left alone by operators, the membership follows the phase.
  lemma {:induction false} MembershipFollowsPhase(es: seq<Event>)
    requires forall i :: 0 <= i < |es| ==> !es[i].Operate?
    ensures var w := Run(START, es); w.member == if w.phase.Ready? then Granted else Awaiting
  {
    if es != [] {
      MembershipFollowsPhase(es[..|es| - 1]);
      RunSafe(es[..|es| - 1]);
      MembershipStep(Run(START, es[..|es| - 1]), es[|es| - 1]);
    }
  }

  lemma PhaseKept(w: World, e: Event)
    requires !e.Operate? && !e.Advance?
    ensures Apply(w, e).member == w.member && Apply(w, e).phase == w.phase
  {
    hide BootstrapNext, Holds, MayDiscover;
  }

  lemma MembershipStep(w: World, e: Event)
    requires !e.Operate? && w.member == if w.phase.Ready? then Granted else Awaiting
    ensures var w' := Apply(w, e); w'.member == if w'.phase.Ready? then Granted else Awaiting
  {
    hide BootstrapNext, Holds, MayDiscover;
    if e.Advance? { NothingAfterReady(); } else { PhaseKept(w, e); }
  }

  lemma NothingAfterReady()
    ensures BootstrapNext(Ready).None?
  {
  }

  // Recorded discovery never changes, and it is there from ControlPlaneInitializing on.
  lemma {:induction false} DiscoveryIsWriteOnce(es: seq<Event>, more: seq<Event>)
    ensures var d, d' := Run(START, es).discovery, Run(Run(START, es), more).discovery;
      (d.endpoint != "" ==> d'.endpoint == d.endpoint) && (d.ca != "" ==> d'.ca == d.ca)
    ensures Index(Run(START, es).phase) >= 2 ==> Run(START, es).discovery.endpoint != "" && Run(START, es).discovery.ca != ""
    ensures Safe(Run(Run(START, es), more))
  {
    hide Apply;
    RunSafe(es);
    if more != [] {
      DiscoveryIsWriteOnce(es, more[..|more| - 1]);
      StepSafe(Run(Run(START, es), more[..|more| - 1]), more[|more| - 1]);
    }
  }

  // ---------- Fenced leases ----------

  // The operation, phase, cluster, zone and membership rows.
  function Stored(w: World): (OpState, Option<Lease>, int, Phase, Discovery, bool, bool, Member) {
    (w.state, w.lease, w.fence, w.phase, w.discovery, w.clusterReady, w.zoneReady, w.member)
  }

  predicate Exclusive(w: World) {
    (forall k :: k in w.workers ==> w.workers[k].t.fence <= w.fence) &&
    forall j, k :: j in w.workers && k in w.workers && j != k ==> w.workers[j].t.fence != w.workers[k].t.fence
  }

  predicate TokenKept(w: World, w': World, k: nat) {
    k in w'.workers ==> k in w.workers && w'.workers[k].t == w.workers[k].t
  }

  // A worker keeps its token for as long as it lives, and only a claim makes a new one.
  lemma WorkKeepsToken(w: World, e: Event, k: nat)
    requires e.Read? || e.StepDone? || e.Store? || e.Validated?
    ensures Apply(w, e).fence == w.fence && TokenKept(w, Apply(w, e), k)
  {
    hide BootstrapNext, Holds, MayDiscover;
  }

  lemma LeaseKeepsToken(w: World, e: Event, k: nat)
    requires e.Tick? || e.Advance? || e.Renew? || e.Release? || e.Crash? || e.Operate?
    ensures Apply(w, e).fence == w.fence && TokenKept(w, Apply(w, e), k)
  {
    hide BootstrapNext, Holds, MayDiscover;
  }

  lemma KeptExclusive(w: World, w': World)
    requires Exclusive(w) && w'.fence == w.fence && forall k :: k in w'.workers ==> TokenKept(w, w', k)
    ensures Exclusive(w')
  {
  }

  lemma ClaimExclusive(w: World, k: nat, owner: string, d: int)
    requires Exclusive(w)
    ensures Exclusive(ApplyClaim(w, k, owner, d))
  {
  }

  lemma TokenKeptAt(w: World, e: Event, k: nat)
    requires !e.Claim?
    ensures Apply(w, e).fence == w.fence && TokenKept(w, Apply(w, e), k)
  {
    hide Apply, TokenKept;
    if e.Read? || e.StepDone? || e.Store? || e.Validated? { WorkKeepsToken(w, e, k); } else { LeaseKeepsToken(w, e, k); }
  }

  lemma ClaimApplies(w: World, e: Event)
    requires e.Claim?
    ensures Apply(w, e) == ApplyClaim(w, e.worker, e.owner, e.duration)
  {
    hide ApplyClaim;
  }

  lemma ExclusiveStep(w: World, e: Event)
    requires Exclusive(w)
    ensures Exclusive(Apply(w, e))
  {
    hide Apply, Exclusive, TokenKept, ApplyClaim;
    if e.Claim? {
      ClaimApplies(w, e);
      ClaimExclusive(w, e.worker, e.owner, e.duration);
    } else {
      var w' := Apply(w, e);
      TokenKeptAt(w, e, 0);
      forall k | k in w'.workers ensures TokenKept(w, w', k) { TokenKeptAt(w, e, k); }
      KeptExclusive(w, w');
    }
  }

  lemma {:induction false} RunExclusive(es: seq<Event>)
    ensures Exclusive(Run(START, es))
  {
    hide Apply, Exclusive;
    if es != [] {
      RunExclusive(es[..|es| - 1]);
      ExclusiveStep(Run(START, es[..|es| - 1]), es[|es| - 1]);
    } else {
      StartExclusive();
    }
  }

  lemma StartExclusive()
    ensures Exclusive(START)
  {
  }

  // In every run an event other than a claim or an operator changes the rows only as the write of the
  // one worker that made the latest claim, before its lease ran out.
  lemma OnlyTheHolderWrites(es: seq<Event>, e: Event)
    requires var w := Run(START, es); Stored(Apply(w, e)) != Stored(w) && !e.Claim? && !e.Operate?
    ensures var w := Run(START, es);
      (e.Store? || e.Advance? || e.Renew? || e.Release?) && e.worker in w.workers &&
      var t := w.workers[e.worker].t;
      w.state == Leased && w.lease.Some? && w.lease.value.owner == t.owner && w.lease.value.until > w.clock && w.fence == t.fence &&
      forall j :: j in w.workers && j != e.worker ==> w.workers[j].t.fence < t.fence
  {
    hide Run, BootstrapNext;
    RunExclusive(es);
    if !e.Store? && !e.Advance? && !e.Renew? && !e.Release? { StoredSame(Run(START, es), e); }
  }

  lemma StoredSame(w: World, e: Event)
    requires e.Tick? || e.Read? || e.StepDone? || e.Validated? || e.Crash?
    ensures Stored(Apply(w, e)) == Stored(w)
  {
    hide BootstrapNext;
  }

  // Discovery changes only from empty fields to what the step into ControlPlaneInitializing found, in
  // the phase before it and while the cluster is not ready.
  lemma DiscoveryComesFromItsStep(es: seq<Event>, e: Event)
    requires var w := Run(START, es); Apply(w, e).discovery != w.discovery
    ensures var w, w' := Run(START, es), Apply(Run(START, es), e);
      e.Store? && e.worker in w.workers && w.workers[e.worker].Stepped? &&
      var pc := w.workers[e.worker];
      pc.next == ControlPlaneInitializing && w.phase == InfrastructureProvisioning && !w.clusterReady && w'.discovery == pc.found &&
      pc.found.endpoint != "" && w.discovery.endpoint in {"", pc.found.endpoint} && pc.found.ca != "" && w.discovery.ca in {"", pc.found.ca}
  {
    hide Run, BootstrapNext, Holds;
  }

  // The lease changes only by a claim of a free operation, under the next fence, by a renewal before
  // it ran out, both for exactly the time asked for, or by being given up before it ran out.
  lemma LeaseMovesExactly(es: seq<Event>, e: Event)
    requires var w, w' := Run(START, es), Apply(Run(START, es), e); w'.lease != w.lease || w'.fence != w.fence
    ensures var w, w' := Run(START, es), Apply(Run(START, es), e);
      if e.Claim? then
        (w.state == Pending || (w.state == Leased && (w.lease == None || w.lease.value.until <= w.clock))) &&
        w'.state == Leased && w'.lease == Some(Lease(e.owner, w.clock + e.duration)) && w'.fence == w.fence + 1
      else
        w.state == Leased && w.lease.Some? && w.lease.value.until > w.clock && w'.fence == w.fence &&
        if e.Renew? then w'.lease == Some(Lease(w.lease.value.owner, w.clock + e.duration))
        else (e.Release? || e.Advance?) && w'.lease == None && w'.state in {Pending, Succeeded}
  {
    hide Run, BootstrapNext;
    if !e.Claim? && !e.Renew? && !e.Release? && !e.Advance? { LeaseSame(Run(START, es), e); }
  }

  lemma LeaseSame(w: World, e: Event)
    requires !e.Claim? && !e.Renew? && !e.Release? && !e.Advance?
    ensures Apply(w, e).lease == w.lease && Apply(w, e).fence == w.fence
  {
    hide BootstrapNext, Holds, MayDiscover;
  }
}
