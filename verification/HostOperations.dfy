// The Secret controller (internal/hostoperations/controller.go, internal/hostoperations/store.go)
// composed with Subd. Controllers take a per-host lock, allocate a revision in a table, deliver to
// Subd and record the outcome; replies are lost, deliveries are duplicated and delayed, and both
// sides crash. The lock belongs to a database connection, so a controller that loses it can still
// have its request delivered, but can no longer touch the table.

module HostOperations {
  import opened Options
  import opened Selection
  import S = Subd

  const MAX_REVISION := 0x7fff_ffff_ffff_ffff

  datatype Result = Unknown | Failed | Applied

  // A row of host_state_requests; content stands for its fingerprint (SHA-256, taken as injective).
  datatype Row = Row(content: string, revision: nat, result: Result)

  // Where the lock holder stands in Execute.
  datatype Stage =
    | Locked
    | Found(row: Option<Row>)
    | Seen(row: Option<Row>, accepted: nat)
    | Assigned
    | Answered(result: Result)

  datatype Controller = Controller(id: string, content: string, stage: Stage)

  // A status Subd sent back for a delivered request.
  datatype Answer = Answer(request: S.Request, status: S.Status)

  // holder is the controller whose connection holds the host lock; sent holds every request that
  // was ever put on the wire and may still arrive.
  datatype Fleet = Fleet(
    host: S.Host, rows: map<string, Row>, holder: Option<Controller>, sent: set<S.Request>, answers: set<Answer>)

  datatype Event =
    | Acquire(id: string, content: string)
    | Lookup
    | Health(status: S.Status)
    | Allocate
    | Send(row: string)
    | Reply(status: S.Status)
    | NoReply(failed: bool)
    | Record
    | Release
    | Agent(step: S.Step)

  function RequestOf(r: Row): S.Request { S.Request(r.revision, "", true, r.content, true) }

  // SELECT COALESCE(max(revision),0)
  ghost function Highest(rows: map<string, Row>): (m: nat)
    ensures forall k :: k in rows ==> rows[k].revision <= m
    ensures m == 0 || exists k :: k in rows && rows[k].revision == m
  {
    var revisions := set k | k in rows :: rows[k].revision;
    assert forall k :: k in rows ==> rows[k].revision in revisions;
    if revisions == {} then 0 else Largest(revisions)
  }

  // ---------- Steps ----------

  function At(f: Fleet, stage: Stage): Fleet
    requires f.holder.Some?
  {
    f.(holder := Some(f.holder.value.(stage := stage)))
  }

  // Another identifier with other contents is refused; one already applied is answered from the row.
  function Looked(f: Fleet, c: Controller): Fleet
    requires f.holder == Some(c)
  {
    if c.id !in f.rows then At(f, Found(None))
    else if f.rows[c.id].content != c.content || f.rows[c.id].result.Applied? then f.(holder := None)
    else At(f, Found(Some(f.rows[c.id])))
  }

  ghost function Allocated(f: Fleet, c: Controller): Fleet
    requires f.holder == Some(c) && c.stage.Seen?
  {
    if c.stage.row.Some? then
      if c.stage.accepted > c.stage.row.value.revision then f.(holder := None) else At(f, Assigned)
    else
      var top := Highest(f.rows);
      var maximum := if c.stage.accepted > top then c.stage.accepted else top;
      if maximum >= MAX_REVISION || c.id in f.rows then f.(holder := None)
      else At(f, Assigned).(rows := f.rows[c.id := Row(c.content, maximum + 1, Unknown)])
  }

  // The outcome a controller derives from the status its delivery was answered with.
  function Judged(status: S.Status, revision: nat): Result {
    if status.accepted != revision then Unknown
    else if status.outcome.Failed? then Failed
    else if status.outcome.Applied? && status.applied == revision && status.kubernetes == Some("verified") then Applied
    else Unknown
  }

  // What Subd says while handling a step: the status after an update that ran to its end, or of a
  // request it had already applied.
  function Said(h: S.Host, step: S.Step): set<Answer> {
    if h.live.None? then {}
    else
      var m := h.live.value;
      match step
      case Finish => if m.stage.Concluded? then {Answer(m.saved.request, S.StatusOf(m.saved))} else {}
      case Receive(r, _) => if m.stage.Idle? && S.Judge(m.saved, r).Already? then {Answer(r, S.StatusOf(m.saved))} else {}
      case _ => {}
  }

  ghost function Next(f: Fleet, e: Event): Fleet {
    match e
    case Acquire(id, content) => if f.holder.Some? then f else f.(holder := Some(Controller(id, content, Locked)))
    case Lookup => if f.holder.Some? && f.holder.value.stage.Locked? then Looked(f, f.holder.value) else f
    case Health(status) =>
      if f.holder.Some? && f.holder.value.stage.Found? && status in f.host.views
      then At(f, Seen(f.holder.value.stage.row, status.accepted)) else f
    case Allocate => if f.holder.Some? && f.holder.value.stage.Seen? then Allocated(f, f.holder.value) else f
    case Send(id) => if id in f.rows then f.(sent := f.sent + {RequestOf(f.rows[id])}) else f
    case Reply(status) =>
      if f.holder.Some? && f.holder.value.stage.Assigned? && f.holder.value.id in f.rows &&
         Answer(RequestOf(f.rows[f.holder.value.id]), status) in f.answers
      then At(f, Answered(Judged(status, f.rows[f.holder.value.id].revision))) else f
    // Without a usable answer the status read before the delivery is judged again.
    case NoReply(failed) => if f.holder.Some? && f.holder.value.stage.Assigned? then At(f, Answered(if failed then Failed else Unknown)) else f
    case Record =>
      if f.holder.Some? && f.holder.value.stage.Answered? && f.holder.value.id in f.rows
      then f.(rows := f.rows[f.holder.value.id := f.rows[f.holder.value.id].(result := f.holder.value.stage.result)], holder := None)
      else f
    case Release => f.(holder := None)
    case Agent(step) =>
      if step.Receive? && step.request !in f.sent then f
      else f.(host := S.Next(f.host, step), answers := f.answers + Said(f.host, step))
  }

  ghost function Run(f: Fleet, es: seq<Event>): Fleet {
    if es == [] then f else Next(Run(f, es[..|es| - 1]), es[|es| - 1])
  }

  // A host as provisioning left it, and an empty table.
  function Begin(before: seq<S.Step>): Fleet { Fleet(S.Run(S.NEW_HOST, before), map[], None, {}, {}) }

  // ---------- What every step keeps ----------

  predicate RowsOk(rows: map<string, Row>) {
    (forall a, b :: a in rows && b in rows && a != b ==> rows[a].revision != rows[b].revision) &&
    (forall a :: a in rows ==> 0 < rows[a].revision <= MAX_REVISION)
  }

  predicate SentOk(f: Fleet) {
    forall r :: r in f.sent ==> exists id :: id in f.rows && r == RequestOf(f.rows[id])
  }

  predicate AnswersOk(f: Fleet) {
    forall a :: a in f.answers ==>
      a.status.accepted == a.request.revision && (a.status.outcome.Applied? ==> a.request in f.host.enforced)
  }

  predicate ResultsOk(f: Fleet) {
    forall id :: id in f.rows && f.rows[id].result.Applied? ==> RequestOf(f.rows[id]) in f.host.enforced
  }

  predicate HolderOk(f: Fleet) {
    f.holder.Some? ==>
      var c := f.holder.value;
      match c.stage
      case Locked => true
      case Found(row) => Known(f, c, row)
      case Seen(row, _) => Known(f, c, row)
      case Assigned => c.id in f.rows && f.rows[c.id].content == c.content && !f.rows[c.id].result.Applied?
      case Answered(result) =>
        c.id in f.rows && f.rows[c.id].content == c.content && !f.rows[c.id].result.Applied? &&
        (result.Applied? ==> RequestOf(f.rows[c.id]) in f.host.enforced)
  }

  // What the lock holder read from the table is still there.
  predicate Known(f: Fleet, c: Controller, row: Option<Row>) {
    if row.Some? then c.id in f.rows && f.rows[c.id] == row.value && row.value.content == c.content && !row.value.result.Applied?
    else c.id !in f.rows
  }

  predicate Good(f: Fleet) {
    S.Good(f.host) && RowsOk(f.rows) && SentOk(f) && AnswersOk(f) && ResultsOk(f) && HolderOk(f)
  }

  // Rows keep their identity and an applied result for good.
  predicate Keeps(f: Fleet, f': Fleet) {
    f.sent <= f'.sent && f.host.enforced <= f'.host.enforced &&
    forall id :: id in f.rows ==>
      id in f'.rows && f'.rows[id].content == f.rows[id].content && f'.rows[id].revision == f.rows[id].revision &&
      (f.rows[id].result.Applied? ==> f'.rows[id].result.Applied?)
  }

  lemma EnforcedGrows(h: S.Host, step: S.Step)
    ensures h.enforced <= S.Next(h, step).enforced
  {
  }

  lemma SaidOk(h: S.Host, step: S.Step, a: Answer)
    requires S.Good(h) && a in Said(h, step)
    ensures a.status.accepted == a.request.revision && (a.status.outcome.Applied? ==> a.request in h.enforced)
  {
  }

  lemma AgentGood(f: Fleet, step: S.Step)
    requires Good(f)
    ensures Good(Next(f, Agent(step))) && Keeps(f, Next(f, Agent(step)))
  {
    hide S.Good, RowsOk, S.Next, Said;
    S.StepGood(f.host, step);
    EnforcedGrows(f.host, step);
    forall a | a in Said(f.host, step)
      ensures a.status.accepted == a.request.revision && (a.status.outcome.Applied? ==> a.request in f.host.enforced) {
      SaidOk(f.host, step, a);
    }
  }

  lemma SentKept(f: Fleet, f': Fleet)
    requires SentOk(f) && Keeps(f, f') && f'.sent == f.sent
    ensures SentOk(f')
  {
    forall r | r in f'.sent ensures exists id :: id in f'.rows && r == RequestOf(f'.rows[id]) {
      var id :| id in f.rows && r == RequestOf(f.rows[id]);
      assert id in f'.rows && r == RequestOf(f'.rows[id]);
    }
  }

  // Steps that leave the table and the wire alone.
  lemma QuietGood(f: Fleet, e: Event)
    requires Good(f) && (e.Acquire? || e.Lookup? || e.Health? || e.Reply? || e.NoReply? || e.Release?)
    ensures Good(Next(f, e)) && Keeps(f, Next(f, e))
  {
    hide S.Good, RowsOk;
    SentKept(f, Next(f, e));
  }

  lemma SendGood(f: Fleet, id: string)
    requires Good(f)
    ensures Good(Next(f, Send(id))) && Keeps(f, Next(f, Send(id)))
  {
    hide S.Good, RowsOk;
  }

  // A new row takes a revision no row has.
  lemma NewRow(rows: map<string, Row>, id: string, content: string, revision: nat)
    requires RowsOk(rows) && id !in rows && Highest(rows) < revision <= MAX_REVISION
    ensures RowsOk(rows[id := Row(content, revision, Unknown)])
  {
  }

  lemma AllocateGood(f: Fleet)
    requires Good(f)
    ensures Good(Next(f, Allocate)) && Keeps(f, Next(f, Allocate))
  {
    hide S.Good, Highest, RowsOk, SentOk;
    var f' := Next(f, Allocate);
    if f.holder.Some? && f.holder.value.stage.Seen? && f'.rows != f.rows {
      var id := f.holder.value.id;
      NewRow(f.rows, id, f'.rows[id].content, f'.rows[id].revision);
    }
    SentKept(f, f');
  }

  lemma RecordGood(f: Fleet)
    requires Good(f)
    ensures Good(Next(f, Record)) && Keeps(f, Next(f, Record))
  {
    hide S.Good;
    SentKept(f, Next(f, Record));
  }

  lemma StepGood(f: Fleet, e: Event)
    requires Good(f)
    ensures Good(Next(f, e)) && Keeps(f, Next(f, e))
  {
    hide Good, Keeps, Next;
    match e {
      case Agent(step) => AgentGood(f, step);
      case Send(id) => SendGood(f, id);
      case Allocate => AllocateGood(f);
      case Record => RecordGood(f);
      case _ => QuietGood(f, e);
    }
  }

  lemma {:induction false} RunGood(f: Fleet, es: seq<Event>)
    requires Good(f)
    ensures Good(Run(f, es)) && Keeps(f, Run(f, es))
  {
    hide Good, Next;
    if es != [] {
      RunGood(f, es[..|es| - 1]);
      StepGood(Run(f, es[..|es| - 1]), es[|es| - 1]);
    }
  }

  lemma Reached(before: seq<S.Step>, es: seq<Event>)
    ensures Good(Run(Begin(before), es))
  {
    hide S.Good, S.Run;
    S.Reached(before);
    RunGood(Begin(before), es);
  }

  // ---------- Main results ----------

  // Distinct requests on a host hold distinct revisions, and an allocation takes one above every
  // revision in the table.
  lemma RevisionsAreDistinctAndRise(before: seq<S.Step>, es: seq<Event>, a: string, b: string)
    requires var f := Next(Run(Begin(before), es), Allocate);
      a in f.rows && b in f.rows && a != b
    ensures var f, f' := Run(Begin(before), es), Next(Run(Begin(before), es), Allocate);
      f'.rows[a].revision != f'.rows[b].revision &&
      (a !in f.rows && b in f.rows ==> f'.rows[b].revision < f'.rows[a].revision)
  {
    hide Run, S.Good, SentOk, AnswersOk, ResultsOk, HolderOk;
    Reached(before, es);
    AllocateGood(Run(Begin(before), es));
  }

  // A new row gets the least revision above the one the holder's health check reported and above
  // every row: one more than the largest of them.
  lemma AllocationExceedsAccepted(before: seq<S.Step>, es: seq<Event>, a: string)
    requires a !in Run(Begin(before), es).rows && a in Next(Run(Begin(before), es), Allocate).rows
    ensures var f, f' := Run(Begin(before), es), Next(Run(Begin(before), es), Allocate);
      f.holder.Some? && f.holder.value.id == a && f.holder.value.stage.Seen? &&
      var accepted, row := f.holder.value.stage.accepted, f'.rows[a];
      accepted < row.revision && (forall b :: b in f.rows ==> f.rows[b].revision < row.revision) &&
      (row.revision == accepted + 1 || row.revision == 1 || exists b :: b in f.rows && row.revision == f.rows[b].revision + 1) &&
      row.content == f.holder.value.content && row.result == Unknown && f'.rows == f.rows[a := row]
  {
    hide Run;
  }

  // As long as the host has accepted nothing beyond that report, Subd takes the new request on: it
  // is neither a conflict nor already applied.
  lemma AllocatedIsAccepted(before: seq<S.Step>, es: seq<Event>, more: seq<Event>, a: string)
    requires a !in Run(Begin(before), es).rows && a in Next(Run(Begin(before), es), Allocate).rows
    requires var f, later := Run(Begin(before), es), Run(Next(Run(Begin(before), es), Allocate), more);
      f.holder.Some? && f.holder.value.stage.Seen? && later.host.live.Some? &&
      later.host.live.value.saved.request.revision <= f.holder.value.stage.accepted
    ensures var f', later := Next(Run(Begin(before), es), Allocate), Run(Next(Run(Begin(before), es), Allocate), more);
      a in later.rows && RequestOf(later.rows[a]) == RequestOf(f'.rows[a]) &&
      S.Judge(later.host.live.value.saved, RequestOf(later.rows[a])).Proceed?
  {
    hide Run, Next, Good;
    AllocationExceedsAccepted(before, es, a);
    Reached(before, es);
    StepGood(Run(Begin(before), es), Allocate);
    RunGood(Next(Run(Begin(before), es), Allocate), more);
  }

  // A retry keeps the row's revision; it goes on exactly when the host has not accepted a newer one.
  lemma RetryKeepsRevision(before: seq<S.Step>, es: seq<Event>)
    requires var f := Run(Begin(before), es); f.holder.Some? && f.holder.value.stage.Seen? && f.holder.value.id in f.rows
    ensures var f, f' := Run(Begin(before), es), Next(Run(Begin(before), es), Allocate);
      var c := f.holder.value;
      f'.rows == f.rows &&
      f'.holder == if c.stage.accepted <= f.rows[c.id].revision then Some(Controller(c.id, c.content, Assigned)) else None
  {
    hide Run, S.Good, RowsOk, SentOk, AnswersOk, ResultsOk;
    Reached(before, es);
  }

  // Whatever the host answered to the holder's own delivery, the row is recorded as applied exactly
  // when the answer says applied and verified, as failed exactly when it says failed, and nothing else
  // of the table changes.
  lemma VerifiedIsRecorded(before: seq<S.Step>, es: seq<Event>, status: S.Status)
    requires var f := Run(Begin(before), es);
      f.holder.Some? && f.holder.value.stage.Assigned? && f.holder.value.id in f.rows &&
      var row := f.rows[f.holder.value.id];
      Answer(S.Request(row.revision, "", true, row.content, true), status) in f.answers
    ensures var f := Run(Begin(before), es);
      var f', id := Next(Next(f, Reply(status)), Record), f.holder.value.id;
      id in f'.rows && f'.holder == None && f'.rows == f.rows[id := f.rows[id].(result := f'.rows[id].result)] &&
      (f'.rows[id].result == Applied <==>
        status.outcome == S.Applied && status.applied == f.rows[id].revision && status.kubernetes == Some("verified")) &&
      (f'.rows[id].result == Failed <==> status.outcome == S.Failed)
  {
    hide Run, S.Good, RowsOk, SentOk, ResultsOk, HolderOk;
    Reached(before, es);
  }

  // ---------- A request can be carried through ----------

  // Lock, lookup, health check, allocation.
  lemma Opens(f: Fleet, id: string, content: string)
    requires Good(f) && f.holder.None? && id !in f.rows && f.host.live.Some? && f.host.live.value.stage.Idle?
    requires f.host.live.value.saved.request.revision < MAX_REVISION && forall b :: b in f.rows ==> f.rows[b].revision < MAX_REVISION
    ensures var f' := Next(Next(Next(Next(f, Acquire(id, content)), Lookup), Health(f.host.live.value.view)), Allocate);
      id in f'.rows && f'.rows == f.rows[id := f'.rows[id]] && f'.rows[id].content == content &&
      f'.rows[id].revision > f.host.live.value.saved.request.revision &&
      f' == f.(rows := f'.rows, holder := Some(Controller(id, content, Assigned)))
  {
    hide RowsOk, SentOk, AnswersOk, ResultsOk;
    var view := f.host.live.value.view;
    assert view in f.host.views;
    var a := Next(f, Acquire(id, content));
    var b := Next(a, Lookup);
    assert b == f.(holder := Some(Controller(id, content, Found(None))));
    var c := Next(b, Health(view));
    assert c == f.(holder := Some(Controller(id, content, Seen(None, view.accepted))));
    assert view.accepted == f.host.live.value.saved.request.revision;
  }

  // The agent's part of one delivery that succeeds.
  function Delivery(r: S.Request): seq<S.Step> {
    [S.Receive(r, S.Written), S.Announce(true), S.Enforce(true, Some("verified")), S.Conclude(S.Written), S.Finish]
  }

  lemma AgentStep(f: Fleet, step: S.Step)
    requires step.Receive? ==> step.request in f.sent
    ensures Next(f, Agent(step)) == f.(host := S.Next(f.host, step), answers := f.answers + Said(f.host, step))
  {
  }

  lemma Delivers(f: Fleet, r: S.Request)
    requires r in f.sent && f.host.live.Some? && f.host.live.value.stage.Idle? && r.secret
    requires S.WellFormed(r) && r.revision > f.host.live.value.saved.request.revision
    ensures var d := Delivery(r);
      var f' := Next(Next(Next(Next(Next(f, Agent(d[0])), Agent(d[1])), Agent(d[2])), Agent(d[3])), Agent(d[4]));
      var status := S.Status(r.revision, r.revision, S.Applied, r.version, Some("verified"));
      f'.rows == f.rows && f'.holder == f.holder && Answer(r, status) in f'.answers && r in f'.host.enforced
  {
    hide Next, S.Next, Said;
    var d := Delivery(r);
    S.UpdateApplies(f.host, r, Some("verified"));
    AgentStep(f, d[0]);
    var a := Next(f, Agent(d[0]));
    AgentStep(a, d[1]);
    var b := Next(a, Agent(d[1]));
    AgentStep(b, d[2]);
    var c := Next(b, Agent(d[2]));
    AgentStep(c, d[3]);
    var e := Next(c, Agent(d[3]));
    AgentStep(e, d[4]);
    SaysApplied(e.host, r);
  }

  lemma SaysApplied(h: S.Host, r: S.Request)
    requires h.live.Some? && h.live.value.stage.Concluded? && h.live.value.saved == S.Saved(r, S.Of(r), r.revision, S.Applied, Some("verified"))
    ensures Answer(r, S.Status(r.revision, r.revision, S.Applied, r.version, Some("verified"))) in Said(h, S.Finish)
  {
  }

  lemma RunAppend(f: Fleet, es: seq<Event>, e: Event)
    ensures Run(f, es + [e]) == Next(Run(f, es), e)
  {
    hide Next;
    assert (es + [e])[..|es|] == es;
  }

  // From every reachable state in which the lock is free, the host idle and revisions are left, a
  // new request can be allocated, delivered, enforced and recorded as applied.
  lemma SecretCanBeApplied(before: seq<S.Step>, es: seq<Event>, id: string, content: string) returns (more: seq<Event>)
    requires var f := Run(Begin(before), es);
      f.holder.None? && id !in f.rows && f.host.live.Some? && f.host.live.value.stage.Idle? &&
      f.host.live.value.saved.request.revision < MAX_REVISION && forall b :: b in f.rows ==> f.rows[b].revision < MAX_REVISION
    ensures var f' := Run(Begin(before), es + more);
      id in f'.rows && f'.rows[id].content == content && f'.rows[id].result == Applied && RequestOf(f'.rows[id]) in f'.host.enforced
  {
    hide Next, Good, Run;
    Reached(before, es);
    var f := Run(Begin(before), es);
    Opens(f, id, content);
    more := [Acquire(id, content), Lookup, Health(f.host.live.value.view), Allocate];
    RunFour(Begin(before), es, more[0], more[1], more[2], more[3]);
    var all := es + more;
    var f1 := Run(Begin(before), all);
    var r := RequestOf(f1.rows[id]);
    RunAppend(Begin(before), all, Send(id));
    SendsRow(f1, id);
    var d := Delivery(r);
    Delivers(Next(f1, Send(id)), r);
    RunFour(Begin(before), all + [Send(id)], Agent(d[0]), Agent(d[1]), Agent(d[2]), Agent(d[3]));
    var sofar := all + [Send(id)] + [Agent(d[0]), Agent(d[1]), Agent(d[2]), Agent(d[3])];
    RunAppend(Begin(before), sofar, Agent(d[4]));
    var done := sofar + [Agent(d[4])];
    var status := S.Status(r.revision, r.revision, S.Applied, r.version, Some("verified"));
    VerifiedIsRecorded(before, done, status);
    RunAppend(Begin(before), done, Reply(status));
    RunAppend(Begin(before), done + [Reply(status)], Record);
    RecordKeepsHost(Run(Begin(before), done), status);
    more := more + [Send(id)] + [Agent(d[0]), Agent(d[1]), Agent(d[2]), Agent(d[3])] + [Agent(d[4])] + [Reply(status)] + [Record];
    assert es + more == done + [Reply(status)] + [Record];
  }

  lemma SendsRow(f: Fleet, id: string)
    requires id in f.rows
    ensures Next(f, Send(id)) == f.(sent := f.sent + {RequestOf(f.rows[id])})
  {
  }

  lemma RecordKeepsHost(f: Fleet, status: S.Status)
    ensures Next(Next(f, Reply(status)), Record).host == f.host
  {
  }

  lemma RunFour(f: Fleet, es: seq<Event>, a: Event, b: Event, c: Event, d: Event)
    ensures Run(f, es + [a, b, c, d]) == Next(Next(Next(Next(Run(f, es), a), b), c), d)
  {
    hide Next, Run;
    RunAppend(f, es, a);
    RunAppend(f, es + [a], b);
    RunAppend(f, es + [a] + [b], c);
    RunAppend(f, es + [a] + [b] + [c], d);
    assert es + [a, b, c, d] == es + [a] + [b] + [c] + [d];
  }

  // Every delivery at one revision, however often it is duplicated or delayed, carries one payload.
  lemma OnePayloadPerRevision(before: seq<S.Step>, es: seq<Event>, a: S.Request, b: S.Request)
    requires a in Run(Begin(before), es).sent && b in Run(Begin(before), es).sent && a.revision == b.revision
    ensures a == b
  {
    hide Run, S.Good;
    Reached(before, es);
    var f := Run(Begin(before), es);
    var i :| i in f.rows && a == RequestOf(f.rows[i]);
    var j :| j in f.rows && b == RequestOf(f.rows[j]);
  }

  // A request recorded as applied was enforced on the host, with exactly the payload recorded for
  // it, and stays recorded as applied.
  lemma RecordedAppliedWasEnforced(before: seq<S.Step>, es: seq<Event>, more: seq<Event>, id: string)
    requires id in Run(Begin(before), es).rows && Run(Begin(before), es).rows[id].result.Applied?
    ensures var f, f' := Run(Begin(before), es), Run(Run(Begin(before), es), more);
      RequestOf(f.rows[id]) in f.host.enforced && id in f'.rows && f'.rows[id] == f.rows[id]
  {
    hide Run, S.Good;
    Reached(before, es);
    RunGood(Run(Begin(before), es), more);
  }

  // Whatever is delivered, the host never hands a request to Host.Apply after publishing that it
  // accepted a newer one.
  lemma NeverAppliesOlder(before: seq<S.Step>, es: seq<Event>, ok: bool, k: Option<string>)
    requires var h := Run(Begin(before), es).host; S.Apply(h, ok, k).applies != h.applies
    ensures var h := Run(Begin(before), es).host;
      var after := S.Apply(h, ok, k).applies;
      |after| == |h.applies| + 1 && forall v :: v in h.views ==> v.accepted <= after[|h.applies|].revision
  {
    hide Run, S.Good, S.Apply;
    Reached(before, es);
    S.NothingOlderIsApplied(Run(Begin(before), es).host, ok, k);
  }
}
