// Subd's cluster-join endpoint (internal/subd/cluster_join.go). The join a host is bound to is kept
// in memory from the first valid request on and in a file that is replaced atomically; a failed
// write may leave either file, and the process may die at any point.

module ClusterJoin {
  import opened Options

  // What the fingerprint covers: endpoint, CA hash and registration. SHA-256 is taken to be
  // injective, so the contract stands for its fingerprint.
  datatype Contract = Contract(endpoint: string, ca: string, registration: string)

  datatype JoinRequest = JoinRequest(operation: string, contract: Contract, fence: int, token: string, wellFormed: bool)

  datatype Outcome = Applying | Applied | Failed | Interrupted

  datatype Join = Join(operation: string, contract: Contract, fence: int, outcome: Outcome)

  // wellFormed stands for the format checks; they demand a non-empty operation and a positive fence.
  predicate ValidJoin(r: JoinRequest) { r.wellFormed && r.operation != "" && r.fence > 0 }

  // busy is the request a running call is working on.
  datatype Memory = Memory(join: Option<Join>, busy: Option<JoinRequest>)

  // calls is history: the requests JoinCluster was called with.
  datatype Host = Host(file: Option<Join>, live: Option<Memory>, calls: seq<JoinRequest>)

  const NEW_HOST: Host := Host(None, None, [])

  datatype Write = Written | LeftOld | LeftNew

  datatype Step =
    | Boot
    | Receive(request: JoinRequest, capable: bool, write: Write)
    | Complete(ok: bool, write: Write)
    | Crash

  function AfterWrite(was: Option<Join>, next: Join, write: Write): Option<Join> {
    if write.LeftOld? then was else Some(next)
  }

  predicate Restorable(j: Join) { j.operation != "" && j.fence > 0 }

  function Recovered(j: Join): Join { if j.outcome.Applying? then j.(outcome := Interrupted) else j }

  // NewServer refuses an invalid file.
  function Start(h: Host): Host {
    if h.live.Some? || (h.file.Some? && !Restorable(h.file.value)) then h
    else h.(live := Some(Memory(if h.file.Some? then Some(Recovered(h.file.value)) else None, None)))
  }

  predicate Conflicts(j: Join, r: JoinRequest) {
    j.operation != r.operation || j.contract != r.contract || r.fence < j.fence
  }

  // The join is bound in memory before anything is written. JoinCluster is called only after the
  // file has been replaced.
  function Accept(h: Host, r: JoinRequest, capable: bool, write: Write): Host {
    if h.live.None? || h.live.value.busy.Some? || !ValidJoin(r) then h
    else
      var m := h.live.value;
      if m.join.Some? && Conflicts(m.join.value, r) then h
      else
        var bound := if m.join.Some? then m.join.value else Join(r.operation, r.contract, r.fence, Applying);
        if !capable then h.(live := Some(m.(join := Some(bound))))
        else
          var next := bound.(fence := r.fence, outcome := Applying);
          var d := h.(file := AfterWrite(h.file, next, write), live := Some(m.(join := Some(next))));
          if write.Written? then d.(live := Some(Memory(Some(next), Some(r))), calls := h.calls + [r]) else d
  }

  function Conclude(h: Host, ok: bool, write: Write): Host {
    if h.live.None? || h.live.value.busy.None? || h.live.value.join.None? then h
    else
      var m := h.live.value;
      var next := m.join.value.(outcome := if ok then Applied else Failed);
      h.(file := AfterWrite(h.file, next, write),
         live := Some(Memory(Some(if ok && !write.Written? then next.(outcome := Interrupted) else next), None)))
  }

  function Next(h: Host, s: Step): Host {
    match s
    case Boot => Start(h)
    case Receive(r, capable, write) => Accept(h, r, capable, write)
    case Complete(ok, write) => Conclude(h, ok, write)
    case Crash => h.(live := None)
  }

  function Run(h: Host, steps: seq<Step>): Host {
    if steps == [] then h else Next(Run(h, steps[..|steps| - 1]), steps[|steps| - 1])
  }

  // ---------- What every step keeps ----------

  // j is the join every call so far was made for, at a fence no lower than any of theirs.
  predicate Covers(j: Join, calls: seq<JoinRequest>) {
    Restorable(j) &&
    forall i :: 0 <= i < |calls| ==> calls[i].operation == j.operation && calls[i].contract == j.contract && calls[i].fence <= j.fence
  }

  predicate Agreed(calls: seq<JoinRequest>) {
    forall i, j :: 0 <= i <= j < |calls| ==>
      calls[i].operation == calls[j].operation && calls[i].contract == calls[j].contract && calls[i].fence <= calls[j].fence
  }

  predicate Good(h: Host) {
    Agreed(h.calls) &&
    (if h.file.Some? then Covers(h.file.value, h.calls) else h.calls == []) &&
    (h.live.Some? ==>
      var m := h.live.value;
      (m.join.Some? ==> Covers(m.join.value, h.calls)) &&
      (h.file.Some? ==>
        m.join.Some? && m.join.value.operation == h.file.value.operation && m.join.value.contract == h.file.value.contract) &&
      (m.busy.Some? ==> h.file.Some?))
  }

  lemma StartGood(h: Host)
    requires Good(h)
    ensures Good(Start(h)) && Good(h.(live := None))
  {
  }

  lemma AcceptGood(h: Host, r: JoinRequest, capable: bool, write: Write)
    requires Good(h)
    ensures Good(Accept(h, r, capable, write))
  {
  }

  lemma ConcludeGood(h: Host, ok: bool, write: Write)
    requires Good(h)
    ensures Good(Conclude(h, ok, write))
  {
  }

  lemma StepGood(h: Host, s: Step)
    requires Good(h)
    ensures Good(Next(h, s))
  {
    hide Good, Start, Accept, Conclude;
    StartGood(h);
    match s {
      case Receive(r, capable, write) => AcceptGood(h, r, capable, write);
      case Complete(ok, write) => ConcludeGood(h, ok, write);
      case _ =>
    }
  }

  lemma {:induction false} RunGood(h: Host, steps: seq<Step>)
    requires Good(h)
    ensures Good(Run(h, steps))
  {
    hide Good, Next;
    if steps != [] {
      RunGood(h, steps[..|steps| - 1]);
      StepGood(Run(h, steps[..|steps| - 1]), steps[|steps| - 1]);
    }
  }

  // ---------- Main results ----------

  // Over all requests, failed writes and restarts, every JoinCluster call on a host is for the same
  // operation and the same contract, and their fences never decrease.
  lemma OneJoinPerHost(steps: seq<Step>, i: nat, j: nat)
    requires i <= j < |Run(NEW_HOST, steps).calls|
    ensures var calls := Run(NEW_HOST, steps).calls;
      calls[i].operation == calls[j].operation && calls[i].contract == calls[j].contract && calls[i].fence <= calls[j].fence
  {
    hide Run;
    RunGood(NEW_HOST, steps);
  }

  // Every file left behind is accepted on restart.
  lemma RestartAlwaysSucceeds(steps: seq<Step>)
    ensures Start(Run(NEW_HOST, steps).(live := None)).live.Some?
  {
    hide Run;
    RunGood(NEW_HOST, steps);
  }

  // ---------- The server object ----------

  datatype Reply = Joined | Refused(code: nat)

  // ---------- What a call promises, in terms of what it was given ----------

  ghost predicate WellFormed(r: JoinRequest) { r.wellFormed && r.operation != "" && r.fence > 0 }

  ghost predicate Contradicts(bound: Option<Join>, r: JoinRequest) {
    bound.Some? && (bound.value.operation != r.operation || bound.value.contract != r.contract || r.fence < bound.value.fence)
  }

  // The end of a call that reached JoinCluster.
  ghost predicate Concludes(file: Option<Join>, join: Option<Join>, reply: Reply, r: JoinRequest, ok: bool, last: Write) {
    var outcome := Join(r.operation, r.contract, r.fence, if ok then Applied else Failed);
    join == Some(if ok && last != Written then outcome.(outcome := Interrupted) else outcome) &&
    file == Some(if last == LeftOld then Join(r.operation, r.contract, r.fence, Applying) else outcome) &&
    reply == if !ok then Refused(502) else if last == Written then Joined else Refused(503)
  }

  class Server {
    var file: Option<Join>
    var join: Option<Join>
    ghost var calls: seq<JoinRequest>

    ghost function Abstract(): Host
      reads this
    {
      Host(file, Some(Memory(join, None)), calls)
    }

    constructor (file: Option<Join>, ghost past: Host)
      requires past.file == file && past.live.None? && (file.Some? ==> Restorable(file.value))
      ensures Abstract() == Start(past)
      ensures this.file == file
      ensures join ==
        if file.None? then None else Some(file.value.(outcome := if file.value.outcome == Applying then Interrupted else file.value.outcome))
    {
      this.file := file;
      join := None;
      if file.Some? { join := Some(Recovered(file.value)); }
      calls := past.calls;
    }

    method AtomicJSON(value: Join, write: Write) returns (ok: bool)
      modifies this`file
      ensures file == AfterWrite(old(file), value, write) && ok == write.Written?
    {
      ok := write.Written?;
      if !write.LeftOld? { file := Some(value); }
    }

    // ok is what JoinCluster returned; first and last are the two writes.
    method Handle(r: JoinRequest, capable: bool, first: Write, ok: bool, last: Write) returns (reply: Reply)
      modifies this
      ensures Abstract() == Conclude(Accept(old(Abstract()), r, capable, first), ok, last)
      ensures reply.Joined? ==> r in calls && join.Some? && join.value == Join(r.operation, r.contract, r.fence, Applied) && file == join
      // A malformed request, or one that is not for the bound join at its fence or later, changes nothing.
      ensures !WellFormed(r) ==> reply == Refused(400)
      ensures WellFormed(r) && Contradicts(old(join), r) ==> reply == Refused(409)
      ensures !WellFormed(r) || Contradicts(old(join), r) ==> join == old(join) && file == old(file) && calls == old(calls)
      // Without a host that can join only the binding is kept, in memory.
      ensures WellFormed(r) && !Contradicts(old(join), r) && !capable ==>
        reply == Refused(503) && file == old(file) && calls == old(calls) &&
        join == if old(join).Some? then old(join) else Some(Join(r.operation, r.contract, r.fence, Applying))
      // JoinCluster is called exactly once the intent is durable.
      ensures WellFormed(r) && !Contradicts(old(join), r) && capable && !first.Written? ==>
        reply == Refused(503) && calls == old(calls) && join == Some(Join(r.operation, r.contract, r.fence, Applying)) &&
        file == if first.LeftOld? then old(file) else join
      ensures WellFormed(r) && !Contradicts(old(join), r) && capable && first.Written? ==>
        calls == old(calls) + [r] && Concludes(file, join, reply, r, ok, last)
    {
      if !ValidJoin(r) { return Refused(400); }
      if join.Some? {
        if join.value.operation != r.operation || join.value.contract != r.contract || r.fence < join.value.fence { return Refused(409); }
      } else {
        join := Some(Join(r.operation, r.contract, r.fence, Applying));
      }
      if !capable { return Refused(503); }
      join := Some(join.value.(fence := r.fence, outcome := Applying));
      var written := AtomicJSON(join.value, first);
      if !written { return Refused(503); }
      calls := calls + [r];
      if !ok {
        join := Some(join.value.(outcome := Failed));
        written := AtomicJSON(join.value, last);
        return Refused(502);
      }
      join := Some(join.value.(outcome := Applied));
      written := AtomicJSON(join.value, last);
      if !written {
        join := Some(join.value.(outcome := Interrupted));
        return Refused(503);
      }
      return Joined;
    }
  }
}
