// The Subd host agent's expected-state endpoint (internal/subd/server.go, internal/subd/state.go).
// One update runs under a mutex through five points: the new state is persisted, announced,
// enforced, its outcome persisted and announced again. Any file write may fail after the rename
// and leave either file behind, and the process may die at any point.

module Subd {
  import opened Options

  // content stands for services, packages, image and Secret; wellFormed for the checks on them.
  datatype Request = Request(revision: nat, version: string, secret: bool, content: string, wellFormed: bool)

  predicate ValidRequest(r: Request) { r.revision > 0 && r.wellFormed }

  // SHA-256 over the JSON encoding, taken to be injective: a digest is represented by what it digests.
  datatype Digest = Blank | Of(request: Request)

  datatype Outcome = Unconfigured | Applying | Applied | Failed | Interrupted

  datatype Saved = Saved(request: Request, digest: Digest, applied: nat, outcome: Outcome, kubernetes: Option<string>)

  datatype Status = Status(accepted: nat, applied: nat, outcome: Outcome, version: string, kubernetes: Option<string>)

  const NOTHING: Saved := Saved(Request(0, "", false, "", false), Blank, 0, Unconfigured, None)

  function StatusOf(s: Saved): Status {
    Status(s.request.revision, s.applied, s.outcome,
           if s.outcome.Applied? && s.applied == s.request.revision then s.request.version else "", s.kubernetes)
  }

  // Where the update that holds the mutex stands; previous is the state it replaced.
  datatype Stage =
    | Idle
    | Persisted(previous: Saved)
    | Announced(previous: Saved)
    | Enforced(previous: Saved)
    | Concluded

  datatype Memory = Memory(saved: Saved, view: Status, stage: Stage)

  // The last three fields are history: statuses published, requests handed to Host.Apply, and
  // requests it enforced successfully.
  datatype Host = Host(
    file: Option<Saved>, live: Option<Memory>, views: seq<Status>, applies: seq<Request>, enforced: set<Request>)

  const NEW_HOST: Host := Host(None, None, [], [], {})

  // A failed atomicJSON leaves the old file or the new one.
  datatype Write = Written | LeftOld | LeftNew

  datatype Step =
    | Boot
    | Receive(request: Request, write: Write)
    | Announce(published: bool)
    | Enforce(ok: bool, kubernetes: Option<string>)
    | Conclude(write: Write)
    | Finish
    | Crash

  // ---------- NewServer ----------

  predicate Acceptable(s: Saved) {
    ValidRequest(s.request) && s.digest == Of(s.request) && s.applied <= s.request.revision &&
    (s.outcome.Applying? || s.outcome.Applied? || s.outcome.Failed? || s.outcome.Interrupted?)
  }

  // None when NewServer returns an error.
  function Recovered(file: Option<Saved>): Option<Saved> {
    if file.None? then Some(NOTHING)
    else if !Acceptable(file.value) then None
    else Some(file.value.(outcome := if file.value.outcome.Applying? then Interrupted else file.value.outcome))
  }

  function Start(h: Host): Host {
    if h.live.Some? || Recovered(h.file).None? then h
    else
      var saved := Recovered(h.file).value;
      h.(live := Some(Memory(saved, StatusOf(saved), Idle)), views := h.views + [StatusOf(saved)])
  }

  // ---------- update ----------

  datatype Verdict = Invalid | Conflict | Already | Proceed

  function Judge(saved: Saved, r: Request): Verdict {
    if !ValidRequest(r) then Invalid
    else if r.revision < saved.request.revision || (r.revision == saved.request.revision && Of(r) != saved.digest) then Conflict
    else if r.revision == saved.request.revision && saved.outcome.Applied? then Already
    else Proceed
  }

  function Begun(previous: Saved, r: Request): Saved { Saved(r, Of(r), previous.applied, Applying, None) }

  function AfterWrite(was: Option<Saved>, next: Saved, write: Write): Option<Saved> {
    if write.LeftOld? then was else Some(next)
  }

  function Accept(h: Host, r: Request, write: Write): Host {
    if h.live.None? || !h.live.value.stage.Idle? || !Judge(h.live.value.saved, r).Proceed? then h
    else
      var m := h.live.value;
      var next := Begun(m.saved, r);
      h.(file := AfterWrite(h.file, next, write),
         live := Some(if write.Written? then m.(saved := next, stage := Persisted(m.saved)) else m))
  }

  // publish: the view changes first; the status file may then fail.
  function Publish(h: Host, stage: Stage): Host
    requires h.live.Some?
  {
    var m := h.live.value;
    h.(live := Some(m.(view := StatusOf(m.saved), stage := stage)), views := h.views + [StatusOf(m.saved)])
  }

  function Say(h: Host, published: bool): Host {
    if h.live.None? || !h.live.value.stage.Persisted? then h
    else Publish(h, if published then Announced(h.live.value.stage.previous) else Idle)
  }

  function Apply(h: Host, ok: bool, kubernetes: Option<string>): Host {
    if h.live.None? || !h.live.value.stage.Announced? then h
    else
      var m := h.live.value;
      var r := m.saved.request;
      var k := if r.secret then kubernetes else None;
      var saved := if ok then m.saved.(outcome := Applied, applied := r.revision, kubernetes := k)
                   else m.saved.(outcome := Failed, kubernetes := k);
      h.(live := Some(m.(saved := saved, stage := Enforced(m.stage.previous))),
         applies := h.applies + [r],
         enforced := if ok then h.enforced + {r} else h.enforced)
  }

  function Record(h: Host, write: Write): Host {
    if h.live.None? || !h.live.value.stage.Enforced? then h
    else
      var m := h.live.value;
      var d := h.(file := AfterWrite(h.file, m.saved, write));
      if write.Written? then d.(live := Some(m.(stage := Concluded)))
      else Publish(d.(live := Some(m.(saved := m.saved.(outcome := Interrupted, applied := m.stage.previous.applied)))), Idle)
  }

  function End(h: Host): Host {
    if h.live.None? || !h.live.value.stage.Concluded? then h else Publish(h, Idle)
  }

  function Next(h: Host, s: Step): Host {
    match s
    case Boot => Start(h)
    case Receive(r, write) => Accept(h, r, write)
    case Announce(published) => Say(h, published)
    case Enforce(ok, k) => Apply(h, ok, k)
    case Conclude(write) => Record(h, write)
    case Finish => End(h)
    case Crash => h.(live := None)
  }

  function Run(h: Host, steps: seq<Step>): Host {
    if steps == [] then h else Next(Run(h, steps[..|steps| - 1]), steps[|steps| - 1])
  }

  // ---------- What every step keeps ----------

  predicate SavedOk(s: Saved) { s == NOTHING || Acceptable(s) }

  function FileRevision(file: Option<Saved>): nat { if file.Some? then file.value.request.revision else 0 }
  function FileApplied(file: Option<Saved>): nat { if file.Some? then file.value.applied else 0 }

  // The file is never behind what memory accepted, nor behind what was published as applied.
  predicate Durable(file: Option<Saved>, s: Saved, applied: nat) {
    (file.Some? ==> Acceptable(file.value)) &&
    s.request.revision <= FileRevision(file) && applied <= FileApplied(file) &&
    (file.Some? && file.value.request.revision == s.request.revision ==> file.value.request == s.request)
  }

  predicate StageOk(m: Memory) {
    match m.stage
    case Idle => m.view == StatusOf(m.saved)
    case Persisted(p) => m.saved == Begun(p, m.saved.request) && Follows(p, m)
    case Announced(p) => m.saved == Begun(p, m.saved.request) && Follows(p, m) && m.view == StatusOf(m.saved)
    case Enforced(p) => p.applied <= m.saved.applied && Follows(p, m) && m.view.accepted == m.saved.request.revision
    case Concluded => m.view.accepted <= m.saved.request.revision && m.view.applied <= m.saved.applied
  }

  // The state an update replaced, as it was published.
  predicate Follows(p: Saved, m: Memory) {
    SavedOk(p) && p.request.revision <= m.saved.request.revision && m.view.accepted <= m.saved.request.revision &&
    m.view.applied == p.applied
  }

  // While an update is under way the file holds its request.
  predicate Held(h: Host, m: Memory) {
    (!m.stage.Idle? ==> h.file.Some? && h.file.value.request == m.saved.request && !m.saved.outcome.Unconfigured?) &&
    (m.stage.Concluded? ==> h.file == Some(m.saved))
  }

  predicate Backed(h: Host, s: Saved) {
    s.outcome.Applied? ==> s.applied == s.request.revision && s.request in h.enforced
  }

  predicate LiveOk(h: Host, m: Memory) {
    SavedOk(m.saved) && StageOk(m) && Held(h, m) && Backed(h, m.saved) &&
    Durable(h.file, m.saved, m.view.applied) &&
    |h.views| > 0 && h.views[|h.views| - 1] == m.view &&
    Latest(h.applies, m.saved.request)
  }

  predicate DeadOk(h: Host) {
    (h.file.Some? ==> Acceptable(h.file.value)) &&
    (|h.views| > 0 ==> h.views[|h.views| - 1].accepted <= FileRevision(h.file) && h.views[|h.views| - 1].applied <= FileApplied(h.file)) &&
    (h.file.Some? ==> Latest(h.applies, h.file.value.request))
  }

  // Requests were applied in revision order, up to r, and at r's own revision only r.
  predicate Latest(applies: seq<Request>, r: Request) {
    forall i :: 0 <= i < |applies| ==> applies[i].revision <= r.revision && (applies[i].revision == r.revision ==> applies[i] == r)
  }

  predicate Ordered(applies: seq<Request>) {
    forall i, j :: 0 <= i < j < |applies| ==>
      applies[i].revision <= applies[j].revision && (applies[i].revision == applies[j].revision ==> applies[i] == applies[j])
  }

  predicate Rising(views: seq<Status>) {
    forall i, j :: 0 <= i < j < |views| ==> views[i].accepted <= views[j].accepted && views[i].applied <= views[j].applied
  }

  predicate Good(h: Host) {
    (if h.live.Some? then LiveOk(h, h.live.value) else DeadOk(h)) &&
    Rising(h.views) && Ordered(h.applies) && (h.file.None? ==> h.applies == []) && (h.file.Some? ==> Backed(h, h.file.value)) &&
    (forall v :: v in h.views ==> v.applied <= v.accepted)
  }

  lemma BootGood(h: Host)
    requires Good(h)
    ensures Good(Start(h))
  {
    RisingAppend(h.views, StatusOf(if Recovered(h.file).Some? then Recovered(h.file).value else NOTHING));
  }

  lemma RisingAppend(views: seq<Status>, v: Status)
    ensures Rising(views) && (|views| > 0 ==> views[|views| - 1].accepted <= v.accepted && views[|views| - 1].applied <= v.applied) ==>
      Rising(views + [v])
  {
  }

  lemma ReceiveGood(h: Host, r: Request, write: Write)
    requires Good(h)
    ensures Good(Accept(h, r, write))
  {
  }

  lemma AnnounceGood(h: Host, published: bool)
    requires Good(h)
    ensures Good(Say(h, published))
  {
    if h.live.Some? { RisingAppend(h.views, StatusOf(h.live.value.saved)); }
  }

  lemma EnforceGood(h: Host, ok: bool, k: Option<string>)
    requires Good(h)
    ensures Good(Apply(h, ok, k))
  {
  }

  lemma ConcludeGood(h: Host, write: Write)
    requires Good(h)
    ensures Good(Record(h, write))
  {
    if h.live.Some? && h.live.value.stage.Enforced? {
      RisingAppend(h.views, StatusOf(h.live.value.saved.(outcome := Interrupted, applied := h.live.value.stage.previous.applied)));
    }
  }

  lemma FinishGood(h: Host)
    requires Good(h)
    ensures Good(End(h))
  {
    if h.live.Some? { RisingAppend(h.views, StatusOf(h.live.value.saved)); }
  }

  lemma CrashGood(h: Host)
    requires Good(h)
    ensures Good(h.(live := None))
  {
  }

  lemma StepGood(h: Host, s: Step)
    requires Good(h)
    ensures Good(Next(h, s))
  {
    hide Good, Start, Accept, Say, Apply, Record, End;
    match s {
      case Boot => BootGood(h);
      case Receive(r, write) => ReceiveGood(h, r, write);
      case Announce(published) => AnnounceGood(h, published);
      case Enforce(ok, k) => EnforceGood(h, ok, k);
      case Conclude(write) => ConcludeGood(h, write);
      case Finish => FinishGood(h);
      case Crash => CrashGood(h);
    }
  }

  lemma {:induction false} RunGood(h: Host, steps: seq<Step>)
    requires Good(h)
    ensures Good(Run(h, steps))
  {
    hide Good, Next;
    if steps != [] {
      RunGood(h, steps[..|steps| - 1]);
      StepGood(Run(h, steps[..|steps| - 1]), steps[|steps| - 1]);
    }
  }

  lemma Reached(steps: seq<Step>)
    ensures Good(Run(NEW_HOST, steps))
  {
    RunGood(NEW_HOST, steps);
  }

  // ---------- Main results ----------

  // Over any sequence of updates, failed writes and restarts the published revisions never
  // decrease, and nothing is published as applied that was not accepted.
  lemma PublishedRevisionsRise(steps: seq<Step>, i: nat, j: nat)
    requires i <= j < |Run(NEW_HOST, steps).views|
    ensures var views := Run(NEW_HOST, steps).views;
      views[i].accepted <= views[j].accepted && views[i].applied <= views[j].applied && views[i].applied <= views[i].accepted
  {
    hide Run, LiveOk, DeadOk;
    Reached(steps);
    assert Run(NEW_HOST, steps).views[i] in Run(NEW_HOST, steps).views;
  }

  // Host.Apply sees revisions in nondecreasing order and only ever one request per revision.
  lemma AppliesInOrder(steps: seq<Step>, i: nat, j: nat)
    requires i <= j < |Run(NEW_HOST, steps).applies|
    ensures var applies := Run(NEW_HOST, steps).applies;
      applies[i].revision <= applies[j].revision && (applies[i].revision == applies[j].revision ==> applies[i] == applies[j])
  {
    hide Run, LiveOk, DeadOk;
    Reached(steps);
  }

  // Once a revision has been published as accepted, nothing older is handed to Host.Apply.
  lemma NothingOlderIsApplied(h: Host, ok: bool, k: Option<string>)
    requires Good(h) && Apply(h, ok, k).applies != h.applies
    ensures var after := Apply(h, ok, k).applies;
      |after| == |h.applies| + 1 && after[..|h.applies|] == h.applies &&
      forall v :: v in h.views ==> v.accepted <= after[|h.applies|].revision
  {
    var m := h.live.value;
    forall v | v in h.views ensures v.accepted <= m.saved.request.revision {
      var i :| 0 <= i < |h.views| && h.views[i] == v;
      assert h.views[|h.views| - 1].accepted == m.saved.request.revision;
    }
  }

  // Whatever is on disk after a crash at any point, the next start accepts it, and publishes at
  // least what had been published before.
  lemma RestartAlwaysSucceeds(steps: seq<Step>)
    ensures var h := Run(NEW_HOST, steps + [Crash, Boot]); h.live.Some? && h.live.value.stage.Idle?
  {
    hide Run;
    Reached(steps);
    var all := steps + [Crash, Boot];
    assert all[..|all| - 1] == steps + [Crash];
    assert (steps + [Crash])[..|steps + [Crash]| - 1] == steps;
    RunLast(NEW_HOST, steps, Crash);
    RunLast(NEW_HOST, steps + [Crash], Boot);
    assert all == steps + [Crash] + [Boot];
    CrashGood(Run(NEW_HOST, steps));
  }

  lemma RunLast(h: Host, steps: seq<Step>, s: Step)
    ensures Run(h, steps + [s]) == Next(Run(h, steps), s)
  {
    hide Next;
    assert (steps + [s])[..|steps + [s]| - 1] == steps;
  }

  // ---------- Every revision reported as applied ----------

  predicate WasEnforced(enforced: set<Request>, n: nat) {
    n == 0 || exists r :: r in enforced && r.revision == n
  }

  predicate MemoryGrounded(enforced: set<Request>, m: Memory) {
    WasEnforced(enforced, m.saved.applied) &&
    (m.stage.Persisted? || m.stage.Announced? || m.stage.Enforced? ==> WasEnforced(enforced, m.stage.previous.applied))
  }

  // Whatever file, memory and published statuses call applied has been enforced.
  predicate Grounded(h: Host) {
    (h.file.Some? ==> WasEnforced(h.enforced, h.file.value.applied)) &&
    (h.live.Some? ==> MemoryGrounded(h.enforced, h.live.value)) &&
    (forall i :: 0 <= i < |h.views| ==> WasEnforced(h.enforced, h.views[i].applied)) &&
    (forall r :: r in h.enforced ==> r in h.applies)
  }

  lemma EnforceGrounded(h: Host, ok: bool, k: Option<string>)
    requires Grounded(h)
    ensures Grounded(Apply(h, ok, k))
  {
    var h' := Apply(h, ok, k);
    forall n: nat | WasEnforced(h.enforced, n) ensures WasEnforced(h'.enforced, n) {
      if n > 0 {
        var r :| r in h.enforced && r.revision == n;
        assert r in h'.enforced;
      }
    }
    if h' != h && ok { assert h.live.value.saved.request in h'.enforced; }
  }

  lemma StepGrounded(h: Host, s: Step)
    requires Grounded(h)
    ensures Grounded(Next(h, s))
  {
    hide WasEnforced;
    assert WasEnforced(h.enforced, 0) by { NothingEnforced(h.enforced); }
    if s.Enforce? { EnforceGrounded(h, s.ok, s.kubernetes); }
  }

  lemma NothingEnforced(enforced: set<Request>)
    ensures WasEnforced(enforced, 0)
  {
  }

  lemma {:induction false} RunGrounded(steps: seq<Step>)
    ensures Grounded(Run(NEW_HOST, steps))
  {
    hide Next, Grounded;
    if steps != [] {
      RunGrounded(steps[..|steps| - 1]);
      StepGrounded(Run(NEW_HOST, steps[..|steps| - 1]), steps[|steps| - 1]);
    } else {
      NewGrounded();
    }
  }

  lemma NewGrounded()
    ensures Grounded(NEW_HOST)
  {
  }

  // Every revision ever published as applied was enforced, by the only request ever handed to
  // Host.Apply at that revision; and a current status with outcome applied reports its own request.
  lemma AppliedMeansEnforced(steps: seq<Step>)
    ensures var h := Run(NEW_HOST, steps);
      forall i :: 0 <= i < |h.views| && h.views[i].applied > 0 ==>
        exists r :: r in h.enforced && r.revision == h.views[i].applied && forall a :: a in h.applies && a.revision == r.revision ==> a == r
    ensures var h := Run(NEW_HOST, steps);
      h.live.Some? && StatusOf(h.live.value.saved).outcome.Applied? ==>
        h.live.value.saved.request in h.enforced && h.live.value.saved.applied == h.live.value.saved.request.revision
  {
    hide Run;
    Reached(steps);
    RunGrounded(steps);
    var h := Run(NEW_HOST, steps);
    forall i | 0 <= i < |h.views| && h.views[i].applied > 0
      ensures exists r :: r in h.enforced && r.revision == h.views[i].applied && forall a :: a in h.applies && a.revision == r.revision ==> a == r
    {
      assert WasEnforced(h.enforced, h.views[i].applied);
      var r :| r in h.enforced && r.revision == h.views[i].applied;
      OnePerRevision(h.applies, r);
    }
  }

  lemma OnePerRevision(applies: seq<Request>, r: Request)
    requires Ordered(applies) && r in applies
    ensures forall a :: a in applies && a.revision == r.revision ==> a == r
  {
  }

  // ---------- The server object ----------

  datatype Reply = Code(code: nat) | WithStatus(code: nat, status: Status)

  // What one whole call does, when the process lives through it. The steps after one that ends
  // the call early find no update under way and do nothing.
  function Call(h: Host, r: Request, first: Write, told: bool, ok: bool, k: Option<string>, last: Write): Host {
    End(Record(Apply(Say(Accept(h, r, first), told), ok, k), last))
  }

  lemma NothingUnderWay(h: Host, told: bool, ok: bool, k: Option<string>, last: Write)
    requires h.live.Some? && h.live.value.stage.Idle?
    ensures Say(h, told) == h && End(Record(Apply(h, ok, k), last)) == h
  {
  }

  // The last two steps of an update that has been enforced.
  lemma Settles(h: Host, write: Write)
    requires h.live.Some? && h.live.value.stage.Enforced?
    ensures var m := h.live.value;
      var saved := if write.Written? then m.saved else m.saved.(outcome := Interrupted, applied := m.stage.previous.applied);
      End(Record(h, write)) ==
        Host(AfterWrite(h.file, m.saved, write), Some(Memory(saved, StatusOf(saved), Idle)), h.views + [StatusOf(saved)], h.applies, h.enforced)
  {
  }

  // ---------- What a call promises, in terms of what it was given ----------

  ghost predicate WellFormed(r: Request) { r.revision > 0 && r.wellFormed }

  ghost predicate Contradicts(saved: Saved, r: Request) {
    r.revision < saved.request.revision || (r.revision == saved.request.revision && saved.digest != Of(r))
  }

  ghost predicate Repeats(saved: Saved, r: Request) {
    r.revision == saved.request.revision && saved.digest == Of(r) && saved.outcome == Applied
  }

  ghost function Shown(s: Saved): Status {
    Status(s.request.revision, s.applied, s.outcome,
           if s.outcome == Applied && s.applied == s.request.revision then s.request.version else "", s.kubernetes)
  }

  // The end of an update that reached Host.Apply; before is the applied revision it started from.
  ghost predicate Concludes(file: Option<Saved>, saved: Saved, reply: Reply, r: Request, before: nat,
                            ok: bool, k: Option<string>, last: Write, done: bool)
  {
    var secret := if r.secret then k else None;
    var outcome := if ok then Saved(r, Of(r), r.revision, Applied, secret) else Saved(r, Of(r), before, Failed, secret);
    if last != Written then
      saved == Saved(r, Of(r), before, Interrupted, secret) && reply == Code(500) &&
      file == Some(if last == LeftOld then Saved(r, Of(r), before, Applying, None) else outcome)
    else
      saved == outcome && file == Some(outcome) &&
      reply == if !done then Code(500)
               else if ok then WithStatus(200, Status(r.revision, r.revision, Applied, r.version, secret))
               else if r.secret then WithStatus(500, Status(r.revision, before, Failed, "", secret))
               else Code(500)
  }

  // In the machine: a request that is new, whose two writes and announcements succeed and which
  // Host.Apply enforces, ends applied, durable and announced.
  lemma UpdateApplies(h: Host, r: Request, k: Option<string>)
    requires h.live.Some? && h.live.value.stage.Idle?
    requires WellFormed(r) && !Contradicts(h.live.value.saved, r) && !Repeats(h.live.value.saved, r)
    ensures var d := Next(Next(Next(Next(h, Receive(r, Written)), Announce(true)), Enforce(true, k)), Conclude(Written));
      var saved := Saved(r, Of(r), r.revision, Applied, if r.secret then k else None);
      d.live.Some? && d.live.value.stage.Concluded? && d.live.value.saved == saved && d.file == Some(saved) &&
      d.applies == h.applies + [r] && d.enforced == h.enforced + {r} &&
      Next(d, Finish) == d.(live := Some(Memory(saved, Shown(saved), Idle)), views := d.views + [Shown(saved)])
  {
  }

  lemma Conclusion(s: Saved, before: nat, ok: bool, k: Option<string>, last: Write, done: bool)
    requires s.digest == Of(s.request) && s.kubernetes == (if s.request.secret then k else None)
    requires if ok then s.outcome == Applied && s.applied == s.request.revision else s.outcome == Failed && s.applied == before
    ensures var r := s.request;
      if last != Written then
        Concludes(Some(if last == LeftOld then Saved(r, Of(r), before, Applying, None) else s),
                  s.(outcome := Interrupted, applied := before), Code(500),
                  r, before, ok, k, last, done)
      else
        Concludes(Some(s), s, if done && (ok || r.secret) then WithStatus(if ok then 200 else 500, StatusOf(s)) else Code(500),
                  r, before, ok, k, last, done)
  {
  }

  class Server {
    var file: Option<Saved>
    var saved: Saved
    var view: Status
    ghost var views: seq<Status>
    ghost var applies: seq<Request>
    ghost var enforced: set<Request>

    ghost function Abstract(): Host
      reads this
    {
      Host(file, Some(Memory(saved, view, Idle)), views, applies, enforced)
    }

    // NewServer, on a file it accepts; what the process published before it died is history.
    constructor (file: Option<Saved>, ghost past: Host)
      requires Recovered(file).Some? && past.file == file && past.live.None?
      ensures Abstract() == Start(past)
      ensures this.file == file && view == Shown(saved)
      ensures file.None? ==> saved == Saved(Request(0, "", false, "", false), Blank, 0, Unconfigured, None)
      ensures file.Some? ==> saved == file.value.(outcome := if file.value.outcome == Applying then Interrupted else file.value.outcome)
    {
      this.file := file;
      var recovered := NOTHING;
      if file.Some? {
        recovered := file.value;
        if recovered.outcome.Applying? { recovered := recovered.(outcome := Interrupted); }
      }
      saved := recovered;
      view := StatusOf(recovered);
      views := past.views + [StatusOf(recovered)];
      applies := past.applies;
      enforced := past.enforced;
    }

    method AtomicJSON(value: Saved, write: Write) returns (ok: bool)
      modifies this`file
      ensures file == AfterWrite(old(file), value, write) && ok == write.Written?
    {
      ok := write.Written?;
      if !write.LeftOld? { file := Some(value); }
    }

    method Publish(written: bool) returns (ok: bool)
      modifies this`view, this`views
      ensures view == StatusOf(saved) && views == old(views) + [StatusOf(saved)] && ok == written
    {
      view := StatusOf(saved);
      views := views + [view];
      ok := written;
    }

    // The second half of an update: enforce, persist the outcome, announce it. k is what
    // EnsureSecret returned, ok whether enforcement succeeded.
    method Enact(previous: Saved, ok: bool, k: Option<string>, last: Write, done: bool) returns (reply: Reply)
      requires view == StatusOf(saved) && saved == Begun(previous, saved.request) && ValidRequest(saved.request)
      requires previous.applied <= saved.request.revision && file == Some(saved)
      modifies this
      ensures Abstract() == End(Record(Apply(old(Abstract()).(live := Some(Memory(old(saved), old(view), Announced(previous)))), ok, k), last))
      ensures view == StatusOf(saved) && SavedOk(saved) && reply != Code(409)
      ensures reply.WithStatus? && reply.code == 200 ==>
        reply.status == StatusOf(saved) && saved.request == old(saved).request && saved.outcome.Applied?
      ensures Concludes(this.file, saved, reply, old(saved).request, previous.applied, ok, k, last, done)
      ensures applies == old(applies) + [old(saved).request] && enforced == old(enforced) + if ok then {old(saved).request} else {}
    {
      hide StatusOf, Record, End, Concludes;
      ghost var begun := Abstract().(live := Some(Memory(saved, view, Announced(previous))));
      applies := applies + [saved.request];
      if saved.request.secret { saved := saved.(kubernetes := k); }
      saved := saved.(outcome := Failed);
      if ok {
        saved := saved.(outcome := Applied, applied := saved.request.revision);
        enforced := enforced + {saved.request};
      }
      ghost var enacted := Abstract().(live := Some(Memory(saved, view, Enforced(previous))));
      assert enacted == Apply(begun, ok, k);
      hide Apply;
      Settles(enacted, last);
      Conclusion(saved, previous.applied, ok, k, last, done);
      var written := AtomicJSON(saved, last);
      if !written {
        saved := saved.(outcome := Interrupted, applied := previous.applied);
        written := Publish(done);
        return Code(500);
      }
      written := Publish(done);
      if !written { return Code(500); }
      if !ok { return if saved.request.secret then WithStatus(500, StatusOf(saved)) else Code(500); }
      return WithStatus(200, StatusOf(saved));
    }

    // The first half: the checks, the new state persisted and announced. Some reply ends the call.
    method Prepare(r: Request, first: Write, told: bool) returns (early: Option<Reply>)
      requires view == StatusOf(saved) && SavedOk(saved)
      modifies this
      ensures early.Some? ==> Abstract() == Say(Accept(old(Abstract()), r, first), told)
      ensures early.None? ==>
        Abstract().(live := Some(Memory(saved, view, Announced(old(saved))))) == Say(Accept(old(Abstract()), r, first), told) &&
        saved == Begun(old(saved), r) && ValidRequest(r) && old(saved).applied <= r.revision
      ensures view == StatusOf(saved) && SavedOk(saved)
      ensures early.Some? && early.value.WithStatus? ==> early.value.status == StatusOf(saved) && saved.request == r && saved.outcome.Applied?
      ensures early == Some(Code(409)) <==> Judge(old(saved), r).Conflict?
      ensures early == Some(Code(400)) <==> !WellFormed(r)
      ensures early == Some(Code(409)) <==> WellFormed(r) && Contradicts(old(saved), r)
      ensures early.Some? && early.value.WithStatus? <==> WellFormed(r) && Repeats(old(saved), r)
      ensures early.Some? && early.value.WithStatus? ==> early == Some(WithStatus(200, Shown(old(saved))))
      ensures early.Some? && early != Some(Code(500)) ==> saved == old(saved) && file == old(file) && views == old(views)
      ensures early.None? <==> WellFormed(r) && !Contradicts(old(saved), r) && !Repeats(old(saved), r) && first.Written? && told
      ensures applies == old(applies) && enforced == old(enforced)
      ensures WellFormed(r) && !Contradicts(old(saved), r) && !Repeats(old(saved), r) && !first.Written? ==>
        early == Some(Code(500)) && saved == old(saved) && views == old(views) &&
        file == if first.LeftOld? then old(file) else Some(Saved(r, Of(r), old(saved).applied, Applying, None))
      ensures WellFormed(r) && !Contradicts(old(saved), r) && !Repeats(old(saved), r) && first.Written? ==>
        (early.Some? ==> early == Some(Code(500))) && saved == Saved(r, Of(r), old(saved).applied, Applying, None) && file == Some(saved) &&
        views == old(views) + [Status(r.revision, old(saved).applied, Applying, "", None)]
    {
      if !ValidRequest(r) { return Some(Code(400)); }
      if r.revision < saved.request.revision || (r.revision == saved.request.revision && Of(r) != saved.digest) { return Some(Code(409)); }
      if r.revision == saved.request.revision && saved.outcome.Applied? { return Some(WithStatus(200, StatusOf(saved))); }
      var previous := saved;
      saved := Saved(r, Of(r), previous.applied, Applying, None);
      var written := AtomicJSON(saved, first);
      if !written {
        saved := previous;
        return Some(Code(500));
      }
      written := Publish(told);
      if !written { return Some(Code(500)); }
      return None;
    }

    // first, last: the two writes of the state file; told, done: the two of the status file.
    method Update(r: Request, first: Write, told: bool, ok: bool, k: Option<string>, last: Write, done: bool)
        returns (reply: Reply)
      requires view == StatusOf(saved) && SavedOk(saved)
      modifies this
      ensures Abstract() == Call(old(Abstract()), r, first, told, ok, k, last)
      ensures view == StatusOf(saved) && SavedOk(saved)
      ensures reply.WithStatus? && reply.code == 200 ==> reply.status == StatusOf(saved) && saved.request == r && saved.outcome.Applied?
      ensures reply == Code(409) <==> Judge(old(saved), r).Conflict?
      // A request that is malformed, stale, or contradicts the one accepted at its revision changes nothing.
      ensures !WellFormed(r) ==> reply == Code(400)
      ensures WellFormed(r) && Contradicts(old(saved), r) ==> reply == Code(409)
      // One already applied is answered from what is stored.
      ensures WellFormed(r) && Repeats(old(saved), r) ==> reply == WithStatus(200, Shown(old(saved)))
      ensures !WellFormed(r) || Contradicts(old(saved), r) || Repeats(old(saved), r) ==>
        saved == old(saved) && file == old(file) && views == old(views) && applies == old(applies) && enforced == old(enforced)
      // Any other is persisted, announced and enforced, and its outcome persisted and reported.
      ensures WellFormed(r) && !Contradicts(old(saved), r) && !Repeats(old(saved), r) && first.Written? && told ==>
        Concludes(file, saved, reply, r, old(saved).applied, ok, k, last, done) &&
        applies == old(applies) + [r] && enforced == old(enforced) + if ok then {r} else {}
      ensures WellFormed(r) && !Contradicts(old(saved), r) && !Repeats(old(saved), r) && first.Written? && told && ok && last.Written? && done ==>
        reply == WithStatus(200, Status(r.revision, r.revision, Applied, r.version, if r.secret then k else None)) && r in enforced
      // A failed first write leaves memory as it was; a failed announcement leaves the new state unenforced.
      ensures WellFormed(r) && !Contradicts(old(saved), r) && !Repeats(old(saved), r) && !(first.Written? && told) ==>
        reply == Code(500) && applies == old(applies) && enforced == old(enforced) &&
        saved == if first.Written? then Saved(r, Of(r), old(saved).applied, Applying, None) else old(saved)
    {
      hide WellFormed, Contradicts, Repeats;
      hide Accept, Say, Apply, Record, End, StatusOf, SavedOk, ValidRequest, Judge;
      var previous := saved;
      var early := Prepare(r, first, told);
      if early.Some? {
        NothingUnderWay(Abstract(), told, ok, k, last);
        return early.value;
      }
      reply := Enact(previous, ok, k, last, done);
    }
  }
}
