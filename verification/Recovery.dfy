// The write-ahead release seen from the Node: whatever crashes happened, a controller is never
// refused for a missing quarantine that Crane itself lifted.

module Recovery {
  import opened Options
  import opened Capacity
  import opened Protocol
  import opened Safety
  import opened Guarantees
  import opened WorkerNode

  // The Node as Kubernetes holds it: the one that was validated at enrollment, without its
  // provisioning taints once Crane's update has landed.
  function NodeNow(w: World, h: Id, enrolled: WorkerNode.Node): WorkerNode.Node {
    if h in w.lifted then WorkerNode.Released(enrolled) else enrolled
  }

  // The provisioner reads the Node, and then, after anything else may have happened, the binding with
  // its stored release_started, from which validation takes its recovery flag. It accepts the Node.
  lemma RecoveryIsNeverRefused(es: seq<Event>, more: seq<Event>, h: Id, f: Formats, n: WorkerNode.Node, r: Registration, ip: string)
    requires h in Run(START, es + more).db.bindings
    requires WellScheduled(f, r.template, r.pool) && NodeDrift(n, r, ip, false).None?
    ensures NodeDrift(NodeNow(Run(START, es), h, n), r, ip, Run(START, es + more).db.bindings[h].released).None?
  {
    hide Run, WellScheduled, Quarantined, QuarantineIntact, Tainted, Labelled, Addressed;
    if h in Run(START, es).lifted {
      ReleaseIntentFirst(es, more, h);
      ReleasedNodeIsRecognised(f, n, r, ip, false);
    }
  }

  // Enrollment validates with the flag off; a live controller that enrolls sees the Node untouched.
  lemma EnrollmentIsNeverRefused(es: seq<Event>, k: nat, n: WorkerNode.Node, r: Registration, ip: string)
    requires var w := Run(START, es);
      k in w.workers && (w.workers[k].AtRegistering? || w.workers[k].Joined?) &&
      w.workers[k].t.op in w.db.ops && Live(w.db.ops[w.workers[k].t.op], w.workers[k].t)
    requires NodeDrift(n, r, ip, false).None?
    ensures NodeDrift(NodeNow(Run(START, es), Run(START, es).workers[k].t.host, n), r, ip, false).None?
  {
    hide Run;
    EnrollmentSeesQuarantine(es, k);
  }
}
