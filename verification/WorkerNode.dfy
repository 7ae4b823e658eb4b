// The worker Node at the scheduling handoff (internal/dominator/provisioner.go) and the scheduling
// metadata it is checked against (pkg/api/scheduling.go): Release filters the provisioning taint out
// of the Node's taints in place, and a recovering controller must still recognise the Node.

module WorkerNode {
  import opened Options

  const PROVISIONING := "platform.crane.io/provisioning"

  datatype Taint = Taint(key: string, value: string, effect: string)

  datatype Template = Template(
    architecture: string, instanceType: string, region: string, zone: string, labels: map<string, string>, taints: seq<Taint>)

  datatype Registration = Registration(node: string, provider: string, pool: string, template: Template)

  datatype Address = Address(internal: bool, address: string)

  datatype Node = Node(name: string, provider: string, addresses: seq<Address>, labels: map<string, string>, taints: seq<Taint>)

  // ---------- Scheduling metadata ----------

  function Canonical(t: Template, pool: string): map<string, string> {
    map["kubernetes.io/os" := "linux", "kubernetes.io/arch" := t.architecture,
        "topology.kubernetes.io/region" := t.region, "topology.kubernetes.io/zone" := t.zone,
        "node.kubernetes.io/instance-type" := t.instanceType, "platform.crane.io/node-pool" := pool]
  }

  function SchedulingLabels(t: Template, pool: string): map<string, string> { Canonical(t, pool) + t.labels }

  // The two Kubernetes format checks are library functions; they are parameters here.
  datatype Formats = Formats(qualified: string -> bool, value: string -> bool)

  predicate StartsWith(s: string, prefix: string) { prefix <= s }
  predicate EndsWith(s: string, suffix: string) { |suffix| <= |s| && s[|s| - |suffix|..] == suffix }

  // What precedes the first slash, if there is one.
  function Namespace(k: string): Option<string> {
    if k == "" then None
    else if k[0] == '/' then Some("")
    else if Namespace(k[1..]).Some? then Some([k[0]] + Namespace(k[1..]).value)
    else None
  }

  predicate Reserved(k: string) {
    Namespace(k).Some? &&
    var n := Namespace(k).value;
    n == "kubernetes.io" || EndsWith(n, ".kubernetes.io") || n == "k8s.io" || EndsWith(n, ".k8s.io")
  }

  predicate LabelOk(f: Formats, canonical: map<string, string>, k: string, v: string) {
    f.qualified(k) && f.value(v) && v != "" &&
    (if k in canonical then v == canonical[k] else !Reserved(k) && !StartsWith(k, "platform.crane.io/"))
  }

  predicate TaintOk(f: Formats, t: Taint) {
    t.key != PROVISIONING && f.qualified(t.key) && f.value(t.value) &&
    (t.effect == "NoSchedule" || t.effect == "NoExecute" || t.effect == "PreferNoSchedule")
  }

  predicate LabelsOk(f: Formats, t: Template, pool: string) {
    forall k :: k in SchedulingLabels(t, pool) ==> LabelOk(f, Canonical(t, pool), k, SchedulingLabels(t, pool)[k])
  }

  predicate TaintsOk(f: Formats, taints: seq<Taint>) {
    (forall i :: 0 <= i < |taints| ==> TaintOk(f, taints[i])) &&
    (forall i, j :: 0 <= i < j < |taints| ==> SeenKey(taints[i]) != SeenKey(taints[j]))
  }

  function SeenKey(t: Taint): string { t.key + "/" + t.effect }

  predicate WellScheduled(f: Formats, t: Template, pool: string) {
    t.instanceType != "" && t.region != "" && t.zone != "" && pool != "" &&
    (t.architecture == "amd64" || t.architecture == "arm64") && LabelsOk(f, t, pool) && TaintsOk(f, t.taints)
  }

  // The labels are built by writing the template's over the canonical ones.
  method BuildLabels(t: Template, pool: string) returns (labels: map<string, string>)
    ensures labels == SchedulingLabels(t, pool)
  {
    hide Canonical;
    labels := Canonical(t, pool);
    var left := t.labels.Keys;
    while left != {}
      invariant left <= t.labels.Keys
      invariant labels == Canonical(t, pool) + (map k | k in t.labels && k !in left :: t.labels[k])
      decreases |left|
    {
      var k :| k in left;
      labels := labels[k := t.labels[k]];
      left := left - {k};
    }
    assert (map k | k in t.labels && k !in left :: t.labels[k]) == t.labels;
  }

  // The label loop of ValidateScheduling, in whatever order the map is ranged over.
  method CheckLabels(f: Formats, t: Template, pool: string) returns (ok: bool)
    ensures ok == LabelsOk(f, t, pool)
  {
    hide LabelOk, Canonical, SchedulingLabels;
    var labels := SchedulingLabels(t, pool);
    var left := labels.Keys;
    while left != {}
      invariant left <= labels.Keys
      invariant forall k :: k in labels && k !in left ==> LabelOk(f, Canonical(t, pool), k, labels[k])
      decreases |left|
    {
      var k :| k in left;
      if !LabelOk(f, Canonical(t, pool), k, labels[k]) { return false; }
      left := left - {k};
    }
    return true;
  }

  // Its taint loop, with the key and effect pairs seen so far.
  method CheckTaints(f: Formats, taints: seq<Taint>) returns (ok: bool)
    ensures ok == TaintsOk(f, taints)
  {
    hide TaintOk, SeenKey;
    var seen: set<string> := {};
    for i := 0 to |taints|
      invariant seen == set j | 0 <= j < i :: SeenKey(taints[j])
      invariant forall j :: 0 <= j < i ==> TaintOk(f, taints[j])
      invariant forall j, k :: 0 <= j < k < i ==> SeenKey(taints[j]) != SeenKey(taints[k])
    {
      if SeenKey(taints[i]) in seen || !TaintOk(f, taints[i]) { return false; }
      seen := seen + {SeenKey(taints[i])};
    }
    return true;
  }

  method ValidateScheduling(f: Formats, t: Template, pool: string) returns (ok: bool)
    ensures ok == WellScheduled(f, t, pool)
  {
    if t.instanceType == "" || t.region == "" || t.zone == "" || pool == "" ||
       (t.architecture != "amd64" && t.architecture != "arm64") { return false; }
    ok := CheckLabels(f, t, pool);
    if !ok { return; }
    ok := CheckTaints(f, t.taints);
  }

  // A validated template never overrides a canonical label.
  lemma CanonicalLabelsWin(f: Formats, t: Template, pool: string, k: string)
    requires WellScheduled(f, t, pool) && k in Canonical(t, pool)
    ensures SchedulingLabels(t, pool)[k] == Canonical(t, pool)[k]
  {
    assert k in SchedulingLabels(t, pool);
  }

  // ---------- validateWorkerNode ----------

  function LabelOf(labels: map<string, string>, k: string): string { if k in labels then labels[k] else "" }

  predicate Addressed(n: Node, ip: string) {
    exists i :: 0 <= i < |n.addresses| && n.addresses[i] == Address(true, ip)
  }

  predicate Labelled(n: Node, wanted: map<string, string>) {
    forall k :: k in wanted ==> LabelOf(n.labels, k) == wanted[k]
  }

  predicate Tainted(taints: seq<Taint>, wanted: seq<Taint>) {
    forall i :: 0 <= i < |wanted| ==> wanted[i] in taints
  }

  predicate QuarantineIntact(taints: seq<Taint>) {
    forall i :: 0 <= i < |taints| && taints[i].key == PROVISIONING ==> taints[i].value == "pending" && taints[i].effect == "NoSchedule"
  }

  predicate Quarantined(taints: seq<Taint>) {
    exists i :: 0 <= i < |taints| && taints[i].key == PROVISIONING
  }

  datatype Drift = IdentityDrift | AddressDrift | LabelDrift | TemplateTaintDrift | QuarantineDrift | QuarantineMissing

  function NodeDrift(n: Node, r: Registration, ip: string, releasing: bool): Option<Drift> {
    if n.name != r.node || n.provider != r.provider then Some(IdentityDrift)
    else if !Addressed(n, ip) then Some(AddressDrift)
    else if !Labelled(n, SchedulingLabels(r.template, r.pool)) then Some(LabelDrift)
    else if !Tainted(n.taints, r.template.taints) then Some(TemplateTaintDrift)
    else if !QuarantineIntact(n.taints) then Some(QuarantineDrift)
    else if !Quarantined(n.taints) && !releasing then Some(QuarantineMissing)
    else None
  }

  // The loops of validateWorkerNode.
  method MatchAddress(n: Node, ip: string) returns (matched: bool)
    ensures matched == Addressed(n, ip)
  {
    matched := false;
    for i := 0 to |n.addresses|
      invariant matched == exists j :: 0 <= j < i && n.addresses[j] == Address(true, ip)
    {
      if n.addresses[i].internal && n.addresses[i].address == ip { matched := true; }
    }
  }

  method MatchLabels(n: Node, wanted: map<string, string>) returns (ok: bool)
    ensures ok == Labelled(n, wanted)
  {
    var left := wanted.Keys;
    while left != {}
      invariant left <= wanted.Keys
      invariant forall k :: k in wanted && k !in left ==> LabelOf(n.labels, k) == wanted[k]
      decreases |left|
    {
      var k :| k in left;
      if LabelOf(n.labels, k) != wanted[k] { return false; }
      left := left - {k};
    }
    return true;
  }

  method MatchTaints(taints: seq<Taint>, wanted: seq<Taint>) returns (ok: bool)
    ensures ok == Tainted(taints, wanted)
  {
    for i := 0 to |wanted|
      invariant forall j :: 0 <= j < i ==> wanted[j] in taints
    {
      var found := false;
      for j := 0 to |taints|
        invariant found == (wanted[i] in taints[..j])
      {
        assert taints[..j + 1] == taints[..j] + [taints[j]];
        if taints[j].key == wanted[i].key && taints[j].effect == wanted[i].effect && taints[j].value == wanted[i].value { found := true; }
      }
      assert taints[..|taints|] == taints;
      if !found { return false; }
    }
    return true;
  }

  method InspectQuarantine(taints: seq<Taint>) returns (intact: bool, quarantined: bool)
    ensures intact == QuarantineIntact(taints) && (intact ==> quarantined == Quarantined(taints))
  {
    quarantined := false;
    for i := 0 to |taints|
      invariant forall j :: 0 <= j < i && taints[j].key == PROVISIONING ==> taints[j].value == "pending" && taints[j].effect == "NoSchedule"
      invariant quarantined == exists j :: 0 <= j < i && taints[j].key == PROVISIONING
    {
      if taints[i].key == PROVISIONING {
        if taints[i].value != "pending" || taints[i].effect != "NoSchedule" { return false, quarantined; }
        quarantined := true;
      }
    }
    intact := true;
  }

  method ValidateWorkerNode(n: Node, r: Registration, ip: string, releasing: bool) returns (drift: Option<Drift>)
    ensures drift == NodeDrift(n, r, ip, releasing)
  {
    hide Addressed, Labelled, Tainted, QuarantineIntact, Quarantined, SchedulingLabels;
    if n.name != r.node || n.provider != r.provider { return Some(IdentityDrift); }
    var ok := MatchAddress(n, ip);
    if !ok { return Some(AddressDrift); }
    var labels := BuildLabels(r.template, r.pool);
    ok := MatchLabels(n, labels);
    if !ok { return Some(LabelDrift); }
    ok := MatchTaints(n.taints, r.template.taints);
    if !ok { return Some(TemplateTaintDrift); }
    var intact, quarantined := InspectQuarantine(n.taints);
    if !intact { return Some(QuarantineDrift); }
    if !quarantined && !releasing { return Some(QuarantineMissing); }
    return None;
  }

  // ---------- What validation demands, spelled out ----------

  // The label a worker of this template and pool must carry under a key, if any: the template's own,
  // else one of the six that Crane derives.
  ghost function Wants(t: Template, pool: string, key: string): Option<string> {
    if key in t.labels then Some(t.labels[key])
    else if key == "kubernetes.io/os" then Some("linux")
    else if key == "kubernetes.io/arch" then Some(t.architecture)
    else if key == "topology.kubernetes.io/region" then Some(t.region)
    else if key == "topology.kubernetes.io/zone" then Some(t.zone)
    else if key == "node.kubernetes.io/instance-type" then Some(t.instanceType)
    else if key == "platform.crane.io/node-pool" then Some(pool)
    else None
  }

  lemma LabelsWanted(t: Template, pool: string, key: string)
    ensures key in SchedulingLabels(t, pool) <==> Wants(t, pool, key).Some?
    ensures key in SchedulingLabels(t, pool) ==> Wants(t, pool, key) == Some(SchedulingLabels(t, pool)[key])
  {
  }

  // The part of a key before its first slash.
  ghost predicate Prefixes(n: string, key: string) { |n| < |key| && key[..|n|] == n && key[|n|] == '/' && '/' !in n }

  lemma {:induction false} NamespacePrefixes(key: string)
    ensures Namespace(key).Some? ==> Prefixes(Namespace(key).value, key)
  {
    if key != "" && key[0] != '/' && Namespace(key[1..]).Some? {
      NamespacePrefixes(key[1..]);
      var m := Namespace(key[1..]).value;
      var n := [key[0]] + m;
      assert key[..|n|] == [key[0]] + key[1..][..|m|];
      assert key[|n|] == key[1..][|m|];
      assert forall c :: c in n ==> c == key[0] || c in m;
    }
  }

  lemma {:induction false} PrefixIsNamespace(key: string, n: string)
    requires Prefixes(n, key)
    ensures Namespace(key) == Some(n)
  {
    if n != "" {
      assert n[0] == key[..|n|][0] && n[0] in n;
      assert n[1..] == key[1..][..|n| - 1];
      assert forall c :: c in n[1..] ==> c in n;
      PrefixIsNamespace(key[1..], n[1..]);
      assert n == [key[0]] + n[1..];
    }
  }

  ghost predicate KubernetesOwned(key: string) {
    exists n :: Prefixes(n, key) && (n == "kubernetes.io" || n == "k8s.io" || ".kubernetes.io" == Tail(n, 14) || ".k8s.io" == Tail(n, 7))
  }

  ghost function Tail(s: string, n: nat): string { if n <= |s| then s[|s| - n..] else s }

  lemma ReservedExactly(key: string)
    ensures Reserved(key) <==> KubernetesOwned(key)
  {
    if Namespace(key).Some? {
      NamespacePrefixes(key);
      assert |".kubernetes.io"| == 14 && |".k8s.io"| == 7;
    }
    if n :| Prefixes(n, key) && (n == "kubernetes.io" || n == "k8s.io" || ".kubernetes.io" == Tail(n, 14) || ".k8s.io" == Tail(n, 7)) {
      PrefixIsNamespace(key, n);
      assert |".kubernetes.io"| == 14 && |".k8s.io"| == 7;
    }
  }

  // The same demands without the template's labels.
  ghost function Derived(t: Template, pool: string, key: string): Option<string> { Wants(t.(labels := map[]), pool, key) }

  lemma DerivedIsCanonical(t: Template, pool: string, key: string)
    ensures key in Canonical(t, pool) <==> Derived(t, pool, key).Some?
    ensures key in Canonical(t, pool) ==> Derived(t, pool, key) == Some(Canonical(t, pool)[key])
  {
    LabelsWanted(t.(labels := map[]), pool, key);
    hide Wants;
  }

  // A template is valid exactly when its fields are set, its labels are well formed, repeat a derived
  // label or stay out of the reserved name spaces, and its taints are well formed, distinct and not
  // the provisioning one.
  lemma ScheduledExactly(f: Formats, t: Template, pool: string)
    ensures WellScheduled(f, t, pool) <==>
      t.instanceType != "" && t.region != "" && t.zone != "" && pool != "" && t.architecture in {"amd64", "arm64"} &&
      (forall key :: Wants(t, pool, key).Some? ==> LabelFits(f, t, pool, key)) &&
      (forall i :: 0 <= i < |t.taints| ==> TaintFits(f, t.taints[i])) &&
      (forall i, j :: 0 <= i < j < |t.taints| ==> t.taints[i].key + "/" + t.taints[i].effect != t.taints[j].key + "/" + t.taints[j].effect)
  {
    hide Canonical, SchedulingLabels, Wants, LabelFits, LabelOk, TaintFits, TaintOk;
    forall key
      ensures (key in SchedulingLabels(t, pool) <==> Wants(t, pool, key).Some?) &&
        (key in SchedulingLabels(t, pool) ==> (LabelOk(f, Canonical(t, pool), key, SchedulingLabels(t, pool)[key]) <==> LabelFits(f, t, pool, key)))
    {
      LabelsWanted(t, pool, key);
      if key in SchedulingLabels(t, pool) { LabelFitsExactly(f, t, pool, key); }
    }
    forall i | 0 <= i < |t.taints| ensures TaintOk(f, t.taints[i]) <==> TaintFits(f, t.taints[i]) { TaintFitsExactly(f, t.taints[i]); }
  }

  ghost predicate LabelFits(f: Formats, t: Template, pool: string, key: string)
    requires Wants(t, pool, key).Some?
  {
    var v := Wants(t, pool, key).value;
    f.qualified(key) && f.value(v) && v != "" &&
    (Derived(t, pool, key).Some? ==> v == Derived(t, pool, key).value) &&
    (Derived(t, pool, key).None? ==> !KubernetesOwned(key) && !("platform.crane.io/" <= key))
  }

  lemma LabelFitsExactly(f: Formats, t: Template, pool: string, key: string)
    requires key in SchedulingLabels(t, pool) && Wants(t, pool, key) == Some(SchedulingLabels(t, pool)[key])
    ensures LabelOk(f, Canonical(t, pool), key, SchedulingLabels(t, pool)[key]) <==> LabelFits(f, t, pool, key)
  {
    hide Canonical, SchedulingLabels, Wants, Derived, Reserved, KubernetesOwned;
    DerivedIsCanonical(t, pool, key);
    ReservedExactly(key);
  }

  ghost predicate TaintFits(f: Formats, t: Taint) {
    !ProvisioningTaint(t) && f.qualified(t.key) && f.value(t.value) && t.effect in {"NoSchedule", "NoExecute", "PreferNoSchedule"}
  }

  lemma TaintFitsExactly(f: Formats, t: Taint)
    ensures TaintOk(f, t) <==> TaintFits(f, t)
  {
  }

  ghost predicate Carries(n: Node, t: Template, pool: string) {
    forall key :: Wants(t, pool, key).Some? ==> (if key in n.labels then n.labels[key] else "") == Wants(t, pool, key).value
  }

  ghost predicate ProvisioningTaint(t: Taint) { t.key == "platform.crane.io/provisioning" }

  lemma DriftExactly(n: Node, r: Registration, ip: string, releasing: bool)
    ensures NodeDrift(n, r, ip, releasing) ==
      if n.name != r.node || n.provider != r.provider then Some(IdentityDrift)
      else if Address(true, ip) !in n.addresses then Some(AddressDrift)
      else if !Carries(n, r.template, r.pool) then Some(LabelDrift)
      else if exists t :: t in r.template.taints && t !in n.taints then Some(TemplateTaintDrift)
      else if exists t :: t in n.taints && ProvisioningTaint(t) && (t.value != "pending" || t.effect != "NoSchedule") then Some(QuarantineDrift)
      else if !releasing && !(exists t :: t in n.taints && ProvisioningTaint(t)) then Some(QuarantineMissing)
      else None
  {
    hide SchedulingLabels, Wants;
    forall key ensures (key in SchedulingLabels(r.template, r.pool) <==> Wants(r.template, r.pool, key).Some?) &&
      (key in SchedulingLabels(r.template, r.pool) ==> Wants(r.template, r.pool, key) == Some(SchedulingLabels(r.template, r.pool)[key]))
    {
      LabelsWanted(r.template, r.pool, key);
    }
    assert Carries(n, r.template, r.pool) <==> Labelled(n, SchedulingLabels(r.template, r.pool));
  }

  // ---------- Release ----------

  function Kept(taints: seq<Taint>): seq<Taint> {
    if taints == [] then []
    else
      var front := Kept(taints[..|taints| - 1]);
      var last := taints[|taints| - 1];
      if last.key == PROVISIONING then front else front + [last]
  }

  lemma KeptNext(taints: seq<Taint>, i: nat)
    requires i < |taints|
    ensures Kept(taints[..i + 1]) == Kept(taints[..i]) + if taints[i].key == PROVISIONING then [] else [taints[i]]
  {
    assert taints[..i + 1][..i] == taints[..i];
  }

  // The kept taints are written over the front of the array they are read from.
  method FilterTaints(a: array<Taint>) returns (n: nat)
    modifies a
    ensures n <= a.Length && a[..n] == Kept(old(a[..]))
  {
    hide Kept;
    n := 0;
    ghost var was := a[..];
    KeptNone(was);
    for i := 0 to a.Length
      invariant n <= i && a[..n] == Kept(was[..i])
      invariant forall j :: i <= j < a.Length ==> a[j] == was[j]
    {
      KeptNext(was, i);
      if a[i].key != PROVISIONING {
        a[n] := a[i];
        n := n + 1;
        assert a[..n] == a[..n - 1] + [was[i]];
      }
    }
    assert was[..a.Length] == was;
  }

  lemma KeptNone(taints: seq<Taint>)
    ensures Kept(taints[..0]) == []
  {
  }

  // Exactly the provisioning taints go; every other taint stays as often as it was there.
  lemma {:induction false} KeptExactly(taints: seq<Taint>, t: Taint)
    ensures multiset(Kept(taints))[t] == if t.key == PROVISIONING then 0 else multiset(taints)[t]
    ensures t in Kept(taints) <==> t in taints && t.key != PROVISIONING
  {
    if taints != [] {
      KeptExactly(taints[..|taints| - 1], t);
      assert taints == taints[..|taints| - 1] + [taints[|taints| - 1]];
    }
  }

  // The others keep their order: filtering distributes over concatenation.
  lemma {:induction false} KeptInOrder(a: seq<Taint>, b: seq<Taint>)
    ensures Kept(a + b) == Kept(a) + Kept(b)
  {
    if b == [] {
      assert a + b == a;
    } else {
      var front := b[..|b| - 1];
      KeptInOrder(a, front);
      assert (a + b)[..|a + b| - 1] == a + front;
    }
  }

  lemma {:induction false} KeptTwice(taints: seq<Taint>)
    ensures Kept(Kept(taints)) == Kept(taints)
  {
    if taints != [] {
      var front, last := taints[..|taints| - 1], taints[|taints| - 1];
      KeptTwice(front);
      if last.key != PROVISIONING {
        KeptInOrder(Kept(front), [last]);
        assert Kept([last]) == [last] by { assert [last][..0] == []; }
      }
    }
  }

  function Released(n: Node): Node { n.(taints := Kept(n.taints)) }

  // A node that passed validation still passes it after Release, under the recovery flag, exactly
  // when no template taint uses the provisioning key.
  lemma ReleaseKeepsIdentityExactly(n: Node, r: Registration, ip: string, releasing: bool)
    requires NodeDrift(n, r, ip, releasing).None?
    ensures NodeDrift(Released(n), r, ip, true).None? <==>
      forall i :: 0 <= i < |r.template.taints| ==> r.template.taints[i].key != PROVISIONING
  {
    forall t ensures t in Kept(n.taints) <==> t in n.taints && t.key != PROVISIONING { KeptExactly(n.taints, t); }
    assert forall i :: 0 <= i < |Kept(n.taints)| ==> Kept(n.taints)[i] in Kept(n.taints);
    assert forall i :: 0 <= i < |r.template.taints| ==> r.template.taints[i] in n.taints;
  }

  // So for every registration that passes validation a released node is recognised, releasing it
  // again changes nothing, and without the recovery flag it is refused for its missing quarantine.
  lemma ReleasedNodeIsRecognised(f: Formats, n: Node, r: Registration, ip: string, releasing: bool)
    requires WellScheduled(f, r.template, r.pool) && NodeDrift(n, r, ip, releasing).None?
    ensures NodeDrift(Released(n), r, ip, true).None?
    ensures Released(Released(n)) == Released(n)
    ensures NodeDrift(Released(n), r, ip, false) == Some(QuarantineMissing)
  {
    ReleaseKeepsIdentityExactly(n, r, ip, releasing);
    KeptTwice(n.taints);
    forall i | 0 <= i < |Kept(n.taints)| ensures Kept(n.taints)[i].key != PROVISIONING { KeptExactly(n.taints, Kept(n.taints)[i]); }
  }
}
