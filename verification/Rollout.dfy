/** The Kubernetes rollout of katlctl: a planner that inspects every node and a runner that
    upgrades one node at a time and stops at the first failure. Node agents, kubectl and the
    control-plane endpoint are an environment whose replies are arbitrary. */
module Rollout {
  import opened Results
  import opened Order

  datatype Role = ControlPlane | Worker

  datatype Node = Node(name: string, role: Role)

  /** The role sent with an upgrade request. */
  datatype UpgradeRole = ApplyRole | ControlPlaneRole | WorkerRole

  datatype Target = Target(node: Node, source: string, upgradeRole: UpgradeRole)

  /** The Kubernetes version each node runs. */
  type Cluster = map<string, string>

  datatype PlanError = NoControlPlane | InspectionFailed | MixedSource | WorkerAhead

  /** Why a node could not be inspected, if it could not. */
  datatype Inspection =
    | Inspectable
    | Unreachable | NoStatus | IdentityMismatch | NoGeneration | GenerationUnreadable
    | NotCommittedAndHealthy | NoKubernetesPayload

  datatype DryRunReply = DryRunFailed | DryRunWithoutStatus | DryRunPhase(phase: string)

  datatype Evidence = Evidence(sourceImage: string, targetImage: string, clusterId: Option<string>, snapshot: bool)

  datatype PrepareReply = PrepareReply(
    staged: bool, submitted: bool, terminal: bool, succeeded: bool, recoveryRequired: bool,
    evidence: Option<Evidence>, progressWritten: bool)

  /** What one node does during its own upgrade. `lands` says where the node ends when delivery
      or completion of the request is uncertain. */
  datatype ApplyReply = ApplyReply(
    schedulingReadable: bool, unschedulable: bool, cordons: bool, uploads: bool, submits: bool,
    terminal: bool, succeeded: bool, recoveryRequired: bool, rejoined: bool, endpointReturns: bool,
    uncordons: bool, lands: bool)

  datatype Env = Env(
    inspect: string -> Inspection, architecture: string -> string,
    dryRun: string -> DryRunReply, prepare: string -> PrepareReply, apply: string -> ApplyReply)

  /** `artifact` is the architecture of a locally built image, when one is used. */
  datatype Options = Options(plan: bool, cordon: bool, artifact: Option<string>)

  datatype Event =
    | DryRunSent(node: string)
    | PrepareSent(node: string, preview: bool)
    | CordonSent(node: string)
    | UploadSent(node: string)
    | UpgradeSent(node: string, role: UpgradeRole)
    | UncordonSent(node: string)

  datatype Outcome =
    | Refused(error: PlanError) | ArchitectureMismatch | NothingToDo | DryRunRefused
    | PreparationFailed | PreparationsDisagree | OnlyPlanned | Stopped | Complete

  // ---------------------------------------------------------------------------------------
  // What a plan is

  /** Control planes sort before workers, then by name: the rank character decides first. */
  function RolloutKey(n: Node): string {
    [if n.role == ControlPlane then '0' else '1'] + n.name
  }

  function Ordered(nodes: seq<Node>): (order: seq<Node>) {
    SortBy(nodes, RolloutKey)
  }

  ghost predicate ControlPlanesFirst(order: seq<Node>) {
    forall i, j | 0 <= i < j < |order| && order[j].role == ControlPlane :: order[i].role == ControlPlane
  }

  ghost predicate DistinctNames(order: seq<Node>) {
    forall i, j | 0 <= i < j < |order| :: order[i].name != order[j].name
  }

  ghost predicate Covers(cluster: Cluster, order: seq<Node>) {
    forall n | n in order :: n.name in cluster
  }

  /** The nodes not yet on the target, in order. */
  ghost function Pending(order: seq<Node>, cluster: Cluster, target: string): seq<Node>
    requires Covers(cluster, order)
  {
    if order == [] then []
    else (if cluster[order[0].name] == target then [] else [order[0]]) + Pending(order[1..], cluster, target)
  }

  ghost predicate OneSource(pending: seq<Node>, cluster: Cluster)
    requires Covers(cluster, pending)
  {
    forall i, j | 0 <= i < j < |pending| :: cluster[pending[i].name] == cluster[pending[j].name]
  }

  ghost predicate AnyAt(order: seq<Node>, cluster: Cluster, target: string, role: Role)
    requires Covers(cluster, order)
  {
    exists n :: n in order && n.role == role && cluster[n.name] == target
  }

  function RoleFor(n: Node, applied: bool): UpgradeRole {
    if n.role == Worker then WorkerRole else if applied then ControlPlaneRole else ApplyRole
  }

  /** The first pending control plane applies, unless a control plane already runs the target. */
  ghost function Assign(pending: seq<Node>, cluster: Cluster, applied: bool): (ts: seq<Target>)
    requires Covers(cluster, pending)
    ensures |ts| == |pending|
  {
    if pending == [] then []
    else
      var n := pending[0];
      [Target(n, cluster[n.name], RoleFor(n, applied))]
      + Assign(pending[1..], cluster, applied || n.role == ControlPlane)
  }

  ghost function Plan(order: seq<Node>, cluster: Cluster, target: string): Result<seq<Target>, PlanError>
    requires Covers(cluster, order)
  {
    var pending := Pending(order, cluster, target);
    PendingFrom(order, cluster, target);
    if !OneSource(pending, cluster) then Err(MixedSource)
    else if AnyAt(order, cluster, target, Worker) && (exists n :: n in pending && n.role == ControlPlane)
    then Err(WorkerAhead)
    else Ok(Assign(pending, cluster, AnyAt(order, cluster, target, ControlPlane)))
  }

  lemma {:induction false} PendingFrom(order: seq<Node>, cluster: Cluster, target: string)
    requires Covers(cluster, order)
    ensures forall n :: n in Pending(order, cluster, target) <==> n in order && cluster[n.name] != target
  {
    if order != [] {
      PendingFrom(order[1..], cluster, target);
      assert order == [order[0]] + order[1..];
    }
  }

  /** One run of the rollout, stopped anywhere: the first `k` planned nodes moved, no other. */
  ghost predicate Run(order: seq<Node>, before: Cluster, after: Cluster, target: string)
    requires Covers(before, order)
  {
    var plan := Plan(order, before, target);
    after == before
    || (plan.Ok? && exists k :: 0 <= k <= |plan.value| && after == Moved(before, plan.value[..k], target))
  }

  // ---------------------------------------------------------------------------------------
  // The planner

  /** The plan of a fleet that has a control plane and can be inspected. */
  ghost function Connected(
      nodes: seq<Node>, external: bool, cluster: Cluster, inspect: string -> Inspection, target: string)
    : Result<seq<Target>, PlanError>
    requires Covers(cluster, Ordered(nodes))
  {
    if !external && (forall n | n in nodes :: n.role == Worker) then Err(NoControlPlane)
    else if exists n :: n in nodes && inspect(n.name) != Inspectable then Err(InspectionFailed)
    else Plan(Ordered(nodes), cluster, target)
  }

  /** Inspect every node in rollout order, refuse a fleet that is not one rollout, and give
      each pending node its role. */
  method ConnectTargets(
      nodes: seq<Node>, external: bool, cluster: Cluster, inspect: string -> Inspection, target: string)
    returns (r: Result<seq<Target>, PlanError>)
    requires Covers(cluster, nodes)
    ensures Covers(cluster, Ordered(nodes)) && r == Connected(nodes, external, cluster, inspect, target)
  {
    var order := Ordered(nodes);
    SameMembers(nodes, order);
    var controlPlanes := CountControlPlanes(order);
    if controlPlanes == 0 && !external {
      return Err(NoControlPlane);
    }
    var inspected := InspectAll(order, inspect);
    if !inspected {
      return Err(InspectionFailed);
    }
    var survey := Survey(order, cluster, target);
    if survey.Err? {
      return Err(survey.error);
    }
    var targets := AssignRoles(order, cluster, target, survey.value);
    return Ok(targets);
  }

  method CountControlPlanes(order: seq<Node>) returns (count: nat)
    ensures count == 0 <==> forall n | n in order :: n.role == Worker
  {
    count := 0;
    for i := 0 to |order|
      invariant count == 0 <==> forall k | 0 <= k < i :: order[k].role == Worker
    {
      if order[i].role == ControlPlane {
        count := count + 1;
      }
    }
  }

  method InspectAll(order: seq<Node>, inspect: string -> Inspection) returns (ok: bool)
    ensures ok <==> forall n | n in order :: inspect(n.name) == Inspectable
  {
    for i := 0 to |order|
      invariant forall k | 0 <= k < i :: inspect(order[k].name) == Inspectable
    {
      if inspect(order[i].name) != Inspectable {
        return false;
      }
    }
    return true;
  }

  /** Some node among the first `i` has the role and is, or is not, on the target. */
  ghost predicate Has(order: seq<Node>, i: nat, cluster: Cluster, target: string, role: Role, at: bool)
    requires Covers(cluster, order) && i <= |order|
  {
    exists k :: 0 <= k < i && order[k].role == role && (cluster[order[k].name] == target) == at
  }

  lemma HasStep(order: seq<Node>, i: nat, cluster: Cluster, target: string, role: Role, at: bool)
    requires Covers(cluster, order) && i < |order|
    ensures Has(order, i + 1, cluster, target, role, at) <==>
      Has(order, i, cluster, target, role, at) || (order[i].role == role && (cluster[order[i].name] == target) == at)
  {
  }

  /** The one version the pending nodes among the first `i` run, if any is pending. */
  ghost predicate BaseOf(order: seq<Node>, i: nat, cluster: Cluster, target: string, base: Option<string>)
    requires Covers(cluster, order) && i <= |order|
  {
    && (base.Some? ==> exists k :: 0 <= k < i && cluster[order[k].name] != target)
    && forall k | 0 <= k < i && cluster[order[k].name] != target :: base == Some(cluster[order[k].name])
  }

  lemma SurveyStep(order: seq<Node>, i: nat, cluster: Cluster, target: string)
    requires Covers(cluster, order) && i < |order|
    ensures forall role, at :: Has(order, i + 1, cluster, target, role, at) <==>
      Has(order, i, cluster, target, role, at) || (order[i].role == role && (cluster[order[i].name] == target) == at)
  {
    forall role, at ensures Has(order, i + 1, cluster, target, role, at) <==>
      Has(order, i, cluster, target, role, at) || (order[i].role == role && (cluster[order[i].name] == target) == at)
    {
      HasStep(order, i, cluster, target, role, at);
    }
  }

  /** What the survey found decides the plan. */
  lemma SurveyDecides(order: seq<Node>, cluster: Cluster, target: string, base: Option<string>)
    requires Covers(cluster, order) && BaseOf(order, |order|, cluster, target, base)
    ensures var n := |order|;
      && (Has(order, n, cluster, target, Worker, true) && Has(order, n, cluster, target, ControlPlane, false)
          ==> Plan(order, cluster, target) == Err(WorkerAhead))
      && (!(Has(order, n, cluster, target, Worker, true) && Has(order, n, cluster, target, ControlPlane, false))
          ==> Plan(order, cluster, target).Ok?)
      && (Has(order, n, cluster, target, ControlPlane, true) <==> AnyAt(order, cluster, target, ControlPlane))
  {
    PendingFrom(order, cluster, target);
    HasMeans(order, cluster, target, Worker, true);
    HasMeans(order, cluster, target, ControlPlane, true);
    HasMeans(order, cluster, target, ControlPlane, false);
    var pending := Pending(order, cluster, target);
    forall i | 0 <= i < |pending| ensures base == Some(cluster[pending[i].name]) {
      assert pending[i] in pending;
      var k :| 0 <= k < |order| && order[k] == pending[i];
    }
  }

  lemma HasMeans(order: seq<Node>, cluster: Cluster, target: string, role: Role, at: bool)
    requires Covers(cluster, order)
    ensures Has(order, |order|, cluster, target, role, at) <==>
      exists n :: n in order && n.role == role && (cluster[n.name] == target) == at
  {
    if n :| n in order && n.role == role && (cluster[n.name] == target) == at {
      var k :| 0 <= k < |order| && order[k] == n;
    }
  }

  /** Refuse mixed sources and a worker ahead of a control plane; report whether a control
      plane already runs the target. */
  method Survey(order: seq<Node>, cluster: Cluster, target: string) returns (r: Result<bool, PlanError>)
    requires Covers(cluster, order)
    ensures r.Err? ==> Plan(order, cluster, target) == Err(r.error)
    ensures r.Ok? ==> Plan(order, cluster, target).Ok? && r.value == AnyAt(order, cluster, target, ControlPlane)
  {
    var base: Option<string> := None;
    var controlPlaneAtTarget, pendingControlPlanes, workerAtTarget := false, false, false;
    for i := 0 to |order|
      invariant BaseOf(order, i, cluster, target, base)
      invariant controlPlaneAtTarget <==> Has(order, i, cluster, target, ControlPlane, true)
      invariant workerAtTarget <==> Has(order, i, cluster, target, Worker, true)
      invariant pendingControlPlanes <==> Has(order, i, cluster, target, ControlPlane, false)
    {
      SurveyStep(order, i, cluster, target);
      var n := order[i];
      if cluster[n.name] == target {
        if n.role == ControlPlane {
          controlPlaneAtTarget := true;
        } else {
          workerAtTarget := true;
        }
      } else {
        if base.None? {
          base := Some(cluster[n.name]);
        } else if cluster[n.name] != base.value {
          ghost var k :| 0 <= k < i && cluster[order[k].name] != target;
          MixedPair(order, k, i, cluster, target);
          return Err(MixedSource);
        }
        if n.role == ControlPlane {
          pendingControlPlanes := true;
        }
      }
    }
    SurveyDecides(order, cluster, target, base);
    if workerAtTarget && pendingControlPlanes {
      return Err(WorkerAhead);
    }
    return Ok(controlPlaneAtTarget);
  }

  /** The first control plane to come applies. */
  method NextRole(n: Node, applySelected: bool) returns (role: UpgradeRole, selected: bool)
    ensures role == RoleFor(n, applySelected) && (selected <==> applySelected || n.role == ControlPlane)
  {
    role, selected := WorkerRole, applySelected;
    if n.role == ControlPlane {
      role := ControlPlaneRole;
      if !applySelected {
        role := ApplyRole;
        selected := true;
      }
    }
  }

  method AssignRoles(order: seq<Node>, cluster: Cluster, target: string, applied: bool) returns (targets: seq<Target>)
    requires Covers(cluster, order)
    ensures Covers(cluster, Pending(order, cluster, target))
    ensures targets == Assign(Pending(order, cluster, target), cluster, applied)
  {
    targets := [];
    var applySelected := applied;
    ghost var all := AssignPending(order, cluster, target, applied);
    assert order[0..] == order;
    for i := 0 to |order|
      invariant all == targets + AssignPending(order[i..], cluster, target, applySelected)
    {
      var n := order[i];
      AssignStepAt(order, i, cluster, target, applySelected);
      if cluster[n.name] != target {
        var role;
        role, applySelected := NextRole(n, applySelected);
        targets := targets + [Target(n, cluster[n.name], role)];
      }
    }
    PendingFrom(order, cluster, target);
  }

  ghost function AssignPending(order: seq<Node>, cluster: Cluster, target: string, applied: bool): seq<Target>
    requires Covers(cluster, order)
  {
    PendingFrom(order, cluster, target);
    Assign(Pending(order, cluster, target), cluster, applied)
  }

  lemma AssignStep(order: seq<Node>, cluster: Cluster, target: string, applied: bool)
    requires Covers(cluster, order) && order != []
    ensures var n := order[0];
      AssignPending(order, cluster, target, applied) ==
        if cluster[n.name] == target then AssignPending(order[1..], cluster, target, applied)
        else
          [Target(n, cluster[n.name], RoleFor(n, applied))]
          + AssignPending(order[1..], cluster, target, applied || n.role == ControlPlane)
  {
    var rest := Pending(order[1..], cluster, target);
    if cluster[order[0].name] == target {
      assert Pending(order, cluster, target) == rest;
    } else {
      assert Pending(order, cluster, target)[1..] == rest;
    }
  }

  lemma AssignStepAt(order: seq<Node>, i: nat, cluster: Cluster, target: string, applied: bool)
    requires Covers(cluster, order) && i < |order|
    ensures var n := order[i];
      AssignPending(order[i..], cluster, target, applied) ==
        if cluster[n.name] == target then AssignPending(order[i + 1..], cluster, target, applied)
        else
          [Target(n, cluster[n.name], RoleFor(n, applied))]
          + AssignPending(order[i + 1..], cluster, target, applied || n.role == ControlPlane)
  {
    assert order[i..][1..] == order[i + 1..];
    AssignStep(order[i..], cluster, target, applied);
  }

  lemma SameMembers(nodes: seq<Node>, order: seq<Node>)
    requires order == Ordered(nodes)
    ensures forall n :: n in nodes <==> n in order
  {
    forall n ensures n in nodes <==> n in order {
      assert n in multiset(nodes) <==> n in multiset(order);
    }
  }

  /** Two pending nodes on different versions refuse the whole fleet. */
  lemma MixedPair(order: seq<Node>, i: nat, j: nat, cluster: Cluster, target: string)
    requires Covers(cluster, order) && i < j < |order|
    requires cluster[order[i].name] != target && cluster[order[j].name] != target
    requires cluster[order[i].name] != cluster[order[j].name]
    ensures Plan(order, cluster, target) == Err(MixedSource)
  {
    PendingFrom(order, cluster, target);
    var p := Pending(order, cluster, target);
    var a :| 0 <= a < |p| && p[a] == order[i];
    var b :| 0 <= b < |p| && p[b] == order[j];
    assert a < b || b < a;
  }

  // ---------------------------------------------------------------------------------------
  // The runner

  ghost predicate DryRunAccepted(r: DryRunReply) {
    r.DryRunPhase? && (r.phase == "accepted" || r.phase == "dry-run")
  }

  /** Complete preparation evidence; a preview needs no snapshot. */
  ghost predicate PreparedBy(r: PrepareReply, plan: bool, artifact: bool) {
    && (artifact ==> r.staged) && r.submitted && r.terminal && r.succeeded && !r.recoveryRequired
    && r.evidence.Some? && r.evidence.value.sourceImage != "" && r.evidence.value.targetImage != ""
    && r.evidence.value.clusterId.Some? && (plan || r.evidence.value.snapshot)
    && r.progressWritten
  }

  ghost predicate SameEtcd(a: PrepareReply, b: PrepareReply) {
    && a.evidence.Some? && b.evidence.Some?
    && a.evidence.value.clusterId == b.evidence.value.clusterId
    && a.evidence.value.targetImage == b.evidence.value.targetImage
  }

  ghost predicate Gate(targets: seq<Target>, opts: Options, env: Env) {
    && (forall t | t in targets :: DryRunAccepted(env.dryRun(t.node.name)))
    && (forall t | t in targets && t.node.role == ControlPlane ::
          PreparedBy(env.prepare(t.node.name), opts.plan, opts.artifact.Some?))
    && (forall t, u | t in targets && u in targets && t.node.role == u.node.role == ControlPlane ::
          SameEtcd(env.prepare(t.node.name), env.prepare(u.node.name)))
  }

  ghost function AskedBy(e: Event): seq<(string, UpgradeRole)> {
    if e.UpgradeSent? then [(e.node, e.role)] else []
  }

  /** The nodes asked to upgrade and the roles they were given, in order of the requests. */
  ghost function Upgraded(trace: seq<Event>): seq<(string, UpgradeRole)> {
    if trace == [] then [] else AskedBy(trace[0]) + Upgraded(trace[1..])
  }

  ghost function Planned(targets: seq<Target>): (r: seq<(string, UpgradeRole)>)
    ensures |r| == |targets|
  {
    seq(|targets|, i requires 0 <= i < |targets| => (targets[i].node.name, targets[i].upgradeRole))
  }

  /** Every upgrade request comes after every dry run and every preparation of the whole plan. */
  ghost predicate TraceSafe(trace: seq<Event>, targets: seq<Target>, opts: Options, env: Env) {
    forall i | 0 <= i < |trace| && trace[i].UpgradeSent? ::
      && !opts.plan
      && Gate(targets, opts, env)
      && (forall t | t in targets :: DryRunSent(t.node.name) in trace[..i])
      && (forall t | t in targets && t.node.role == ControlPlane :: PrepareSent(t.node.name, false) in trace[..i])
  }

  /** The cluster once the nodes of `ts` moved to the target, in order. */
  ghost function Moved(cluster: Cluster, ts: seq<Target>, target: string): Cluster {
    if ts == [] then cluster
    else Moved(cluster, ts[..|ts| - 1], target)[ts[|ts| - 1].node.name := target]
  }

  lemma {:induction false} UpgradedConcat(a: seq<Event>, b: seq<Event>)
    ensures Upgraded(a + b) == Upgraded(a) + Upgraded(b)
  {
    if a == [] {
      assert a + b == b;
    } else {
      assert (a + b)[0] == a[0] && (a + b)[1..] == a[1..] + b;
      UpgradedConcat(a[1..], b);
    }
  }

  lemma {:induction false} UpgradedNone(a: seq<Event>)
    requires forall e | e in a :: !e.UpgradeSent?
    ensures Upgraded(a) == []
  {
    if a != [] {
      UpgradedNone(a[1..]);
    }
  }

  ghost function When(sent: bool, e: Event): seq<Event> {
    if sent then [e] else []
  }

  /** The requests of one node's upgrade, in order. */
  ghost function NodeTrace(t: Target, cordoned: bool, uploaded: bool, submitted: bool, restored: bool): seq<Event> {
    var name := t.node.name;
    When(cordoned, CordonSent(name)) + When(uploaded, UploadSent(name))
    + When(submitted, UpgradeSent(name, t.upgradeRole)) + When(restored, UncordonSent(name))
  }

  lemma NodeTraceUpgrades(t: Target, cordoned: bool, uploaded: bool, submitted: bool, restored: bool)
    ensures Upgraded(NodeTrace(t, cordoned, uploaded, submitted, restored)) ==
      if submitted then [(t.node.name, t.upgradeRole)] else []
  {
    var name := t.node.name;
    var a, b := When(cordoned, CordonSent(name)), When(uploaded, UploadSent(name));
    var c, d := When(submitted, UpgradeSent(name, t.upgradeRole)), When(restored, UncordonSent(name));
    UpgradedConcat(a + b + c, d);
    UpgradedConcat(a + b, c);
    UpgradedConcat(a, b);
  }

  /** Upload, submit and wait: a node moves only after its upgrade request was sent, and success
      means it moved and a control plane rejoined etcd and answers again. */
  method SubmitAndWait(t: Target, upload: bool, reply: ApplyReply)
    returns (ok: bool, landed: bool, sent: bool, events: seq<Event>)
    ensures ok ==> landed && (t.node.role == ControlPlane ==> reply.rejoined && reply.endpointReturns)
    ensures sent <==> (upload ==> reply.uploads)
    ensures landed <==> sent && (reply.lands || Succeeds(reply))
    ensures ok <==> sent && Finishes(t, reply)
    ensures events == When(upload, UploadSent(t.node.name)) + When(sent, UpgradeSent(t.node.name, t.upgradeRole))
  {
    ok, landed, sent, events := false, false, true, [];
    if upload {
      events := [UploadSent(t.node.name)];
      if !reply.uploads {
        sent := false;
        return;
      }
    }
    events := events + [UpgradeSent(t.node.name, t.upgradeRole)];
    landed := reply.lands;
    if reply.submits && reply.terminal && reply.succeeded && !reply.recoveryRequired {
      landed := true;
      ok := t.node.role == Worker || (reply.rejoined && reply.endpointReturns);
    }
  }

  /** One node's own upgrade: scheduling is restored exactly when this call changed it. */
  method RunTarget(t: Target, cordon: bool, upload: bool, reply: ApplyReply)
    returns (ok: bool, landed: bool, sent: bool, events: seq<Event>)
    ensures ok ==> landed && (t.node.role == ControlPlane ==> reply.rejoined && reply.endpointReturns)
    ensures sent <==> Proceeds(cordon, reply) && (upload ==> reply.uploads)
    ensures landed <==> sent && (reply.lands || Succeeds(reply))
    ensures events == NodeRequests(t, cordon, upload, reply)
    ensures ok && Cordons(cordon, reply) ==> reply.cordons && reply.uncordons
    ensures ok <==> Works(t, cordon, upload, reply)
  {
    ok, landed, sent, events := false, false, false, [];
    if cordon {
      if !reply.schedulingReadable {
        return;
      }
      if !reply.unschedulable {
        events := [CordonSent(t.node.name)];
        if !reply.cordons {
          return;
        }
      }
    }
    var requests: seq<Event>;
    ok, landed, sent, requests := SubmitAndWait(t, upload, reply);
    events := events + requests;
    if cordon && !reply.unschedulable {
      events := events + [UncordonSent(t.node.name)];
      ok := ok && reply.uncordons;
    }
    assert events == NodeTrace(t, Cordons(cordon, reply), upload, sent, Cordons(cordon, reply));
  }

  /** The requests of one node's upgrade, given what its replies are. */
  ghost function NodeRequests(t: Target, cordon: bool, upload: bool, reply: ApplyReply): seq<Event> {
    NodeTrace(
      t, Cordons(cordon, reply), upload && Proceeds(cordon, reply),
      Proceeds(cordon, reply) && (upload ==> reply.uploads), Cordons(cordon, reply) && reply.cordons)
  }

  ghost predicate Succeeds(reply: ApplyReply) {
    reply.submits && reply.terminal && reply.succeeded && !reply.recoveryRequired
  }

  /** The operation ends well and, on a control plane, etcd and the endpoint come back. */
  ghost predicate Finishes(t: Target, reply: ApplyReply) {
    && Succeeds(reply)
    && (t.node.role == Worker || (reply.rejoined && reply.endpointReturns))
  }

  /** Nothing in one node's upgrade fails. */
  ghost predicate Works(t: Target, cordon: bool, upload: bool, reply: ApplyReply) {
    && Proceeds(cordon, reply) && (upload ==> reply.uploads) && Finishes(t, reply)
    && (Cordons(cordon, reply) ==> reply.uncordons)
  }

  ghost predicate Uploads(t: Target, opts: Options) {
    opts.artifact.Some? && t.node.role == Worker
  }

  ghost predicate Proceeds(cordon: bool, reply: ApplyReply) {
    cordon ==> reply.schedulingReadable && (reply.unschedulable || reply.cordons)
  }

  /** This run changes the node's scheduling only when it was schedulable before. */
  ghost predicate Cordons(cordon: bool, reply: ApplyReply) {
    cordon && reply.schedulingReadable && !reply.unschedulable
  }

  ghost function DryRuns(ts: seq<Target>): (r: seq<Event>)
    ensures |r| == |ts|
  {
    seq(|ts|, i requires 0 <= i < |ts| => DryRunSent(ts[i].node.name))
  }

  /** The loop ended after `k` targets: all were asked, or the last of them was the first that refused. */
  method DryRunAll(targets: seq<Target>, env: Env) returns (ok: bool, events: seq<Event>, ghost k: nat)
    ensures ok <==> forall t | t in targets :: DryRunAccepted(env.dryRun(t.node.name))
    ensures k <= |targets| && events == DryRuns(targets[..k]) && (ok ==> k == |targets|)
    ensures forall j | 0 <= j < k - 1 :: DryRunAccepted(env.dryRun(targets[j].node.name))
    ensures !ok ==> k > 0 && !DryRunAccepted(env.dryRun(targets[k - 1].node.name))
  {
    ok, events, k := true, [], 0;
    for i := 0 to |targets|
      invariant k == i && events == DryRuns(targets[..i])
      invariant forall j | 0 <= j < i :: DryRunAccepted(env.dryRun(targets[j].node.name))
    {
      events := events + [DryRunSent(targets[i].node.name)];
      assert events == DryRuns(targets[..i + 1]);
      k := i + 1;
      var reply := env.dryRun(targets[i].node.name);
      if !reply.DryRunPhase? || (reply.phase != "accepted" && reply.phase != "dry-run") {
        return false, events, k;
      }
    }
  }

  /** The control planes among the first `k` targets are prepared and describe one etcd cluster. */
  ghost predicate CleanTo(targets: seq<Target>, k: nat, opts: Options, env: Env)
    requires k <= |targets|
  {
    && (forall t | t in targets[..k] && t.node.role == ControlPlane ::
          PreparedBy(env.prepare(t.node.name), opts.plan, opts.artifact.Some?))
    && (forall t, u | t in targets[..k] && u in targets[..k] && t.node.role == u.node.role == ControlPlane ::
          SameEtcd(env.prepare(t.node.name), env.prepare(u.node.name)))
  }

  /** A control plane is sent the local image, if there is one, and once that is staged is asked to prepare. */
  ghost function PrepareRequests(t: Target, opts: Options, env: Env): seq<Event> {
    if t.node.role == Worker then []
    else
      var staged := opts.artifact.Some? ==> env.prepare(t.node.name).staged;
      (if opts.artifact.Some? then [UploadSent(t.node.name)] else [])
      + (if staged then [PrepareSent(t.node.name, opts.plan)] else [])
  }

  /** What is sent to the first `k` targets, one after the other. */
  ghost function Joined(ts: seq<Target>, k: nat, part: Target -> seq<Event>): seq<Event>
    requires k <= |ts|
  {
    if k == 0 then [] else Joined(ts, k - 1, part) + part(ts[k - 1])
  }

  lemma {:induction false} JoinedAll(ts: seq<Target>, k: nat, part: Target -> seq<Event>, good: Event -> bool)
    requires k <= |ts| && forall t, e | e in part(t) :: good(e)
    ensures forall e | e in Joined(ts, k, part) :: good(e)
  {
    if k > 0 {
      JoinedAll(ts, k - 1, part, good);
    }
  }

  lemma {:induction false} JoinedHas(ts: seq<Target>, k: nat, part: Target -> seq<Event>, i: nat, e: Event)
    requires i < k <= |ts| && e in part(ts[i])
    ensures e in Joined(ts, k, part)
  {
    if i < k - 1 {
      JoinedHas(ts, k - 1, part, i, e);
    }
  }

  ghost function PreparePart(opts: Options, env: Env): Target -> seq<Event> {
    (t: Target) => PrepareRequests(t, opts, env)
  }

  /** `part` is what is sent to prepare a target. */
  ghost predicate IsPrepare(part: Target -> seq<Event>, opts: Options, env: Env) {
    forall t {:trigger PrepareRequests(t, opts, env)} :: part(t) == PrepareRequests(t, opts, env)
  }

  /** The preparation requests of the first `k` targets. */
  ghost function Preparations(ts: seq<Target>, k: nat, opts: Options, env: Env): seq<Event>
    requires k <= |ts|
  {
    Joined(ts, k, PreparePart(opts, env))
  }

  lemma SameEtcdThrough(a: PrepareReply, b: PrepareReply, c: PrepareReply)
    requires SameEtcd(a, b) && SameEtcd(a, c)
    ensures SameEtcd(b, c) && SameEtcd(c, b)
  {
  }

  /** `first` is the reply of the first control plane among the first `i` targets. */
  ghost predicate FirstReply(targets: seq<Target>, i: nat, env: Env, first: Option<PrepareReply>)
    requires i <= |targets|
  {
    if first.None? then forall t | t in targets[..i] :: t.node.role == Worker
    else exists t :: t in targets[..i] && t.node.role == ControlPlane && first.value == env.prepare(t.node.name)
  }

  lemma CleanStep(targets: seq<Target>, i: nat, opts: Options, env: Env, first: Option<PrepareReply>)
    requires i < |targets| && CleanTo(targets, i, opts, env) && FirstReply(targets, i, env, first)
    ensures var t := targets[i]; var reply := env.prepare(t.node.name);
      CleanTo(targets, i + 1, opts, env) <==>
        t.node.role == Worker
        || (PreparedBy(reply, opts.plan, opts.artifact.Some?) && (first.Some? ==> SameEtcd(first.value, reply)))
  {
    var t := targets[i];
    assert targets[..i + 1] == targets[..i] + [t];
    if first.Some? {
      var f :| f in targets[..i] && f.node.role == ControlPlane && first.value == env.prepare(f.node.name);
      var reply := env.prepare(t.node.name);
      assert forall u | u in targets[..i] && u.node.role == ControlPlane ::
        SameEtcd(first.value, env.prepare(u.node.name));
      if SameEtcd(first.value, reply) {
        forall u | u in targets[..i] && u.node.role == ControlPlane
          ensures SameEtcd(env.prepare(u.node.name), reply) && SameEtcd(reply, env.prepare(u.node.name))
        {
          SameEtcdThrough(first.value, env.prepare(u.node.name), reply);
        }
      }
    }
  }

  lemma FirstReplyStep(targets: seq<Target>, i: nat, env: Env, first: Option<PrepareReply>)
    requires i < |targets| && FirstReply(targets, i, env, first)
    ensures var t := targets[i];
      FirstReply(targets, i + 1, env,
        if first.None? && t.node.role == ControlPlane then Some(env.prepare(t.node.name)) else first)
  {
    assert targets[..i + 1] == targets[..i] + [targets[i]];
  }

  /** Upload the local image, if there is one, and have one control plane take its snapshot. */
  method PrepareOne(t: Target, opts: Options, env: Env, ghost part: Target -> seq<Event>)
    returns (ok: bool, events: seq<Event>)
    requires t.node.role == ControlPlane && IsPrepare(part, opts, env)
    ensures ok <==> PreparedBy(env.prepare(t.node.name), opts.plan, opts.artifact.Some?)
    ensures events == part(t)
  {
    assert part(t) == PrepareRequests(t, opts, env);
    events := [];
    var reply := env.prepare(t.node.name);
    if opts.artifact.Some? {
      events := [UploadSent(t.node.name)];
      if !reply.staged {
        return false, events;
      }
    }
    events := events + [PrepareSent(t.node.name, opts.plan)];
    if !reply.submitted || !reply.terminal || !reply.succeeded || reply.recoveryRequired || reply.evidence.None? {
      return false, events;
    }
    var evidence := reply.evidence.value;
    if evidence.sourceImage == "" || evidence.targetImage == "" || evidence.clusterId.None? {
      return false, events;
    }
    if !opts.plan && !evidence.snapshot {
      return false, events;
    }
    ok := reply.progressWritten;
  }

  lemma NothingToPrepare(t: Target, opts: Options, env: Env, part: Target -> seq<Event>)
    requires t.node.role == Worker && IsPrepare(part, opts, env)
    ensures part(t) == []
  {
    assert part(t) == PrepareRequests(t, opts, env);
  }

  /** Take every control plane's snapshot; all must describe one etcd cluster and one target image. The
      loop ended after `k` targets: all were clean, or the last of them is where they stop being so. */
  method PrepareAll(targets: seq<Target>, opts: Options, env: Env, ghost part: Target -> seq<Event>)
    returns (ok: bool, agree: bool, events: seq<Event>, ghost k: nat)
    requires IsPrepare(part, opts, env)
    ensures k <= |targets| && events == Joined(targets, k, part)
    ensures ok && agree ==> k == |targets| && CleanTo(targets, k, opts, env)
    ensures !(ok && agree) ==>
      && k > 0 && CleanTo(targets, k - 1, opts, env) && !CleanTo(targets, k, opts, env)
      && agree == !ok && ok == PreparedBy(env.prepare(targets[k - 1].node.name), opts.plan, opts.artifact.Some?)
  {
    ok, agree, events, k := true, true, [], 0;
    var first: Option<PrepareReply> := None;
    for i := 0 to |targets|
      invariant ok && agree && k == i && events == Joined(targets, i, part)
      invariant CleanTo(targets, i, opts, env) && FirstReply(targets, i, env, first)
    {
      var t := targets[i];
      CleanStep(targets, i, opts, env, first);
      FirstReplyStep(targets, i, env, first);
      k := i + 1;
      if t.node.role == ControlPlane {
        var sent;
        ok, sent := PrepareOne(t, opts, env, part);
        events := events + sent;
        if !ok {
          return;
        }
        var evidence := env.prepare(t.node.name).evidence.value;
        if first.None? {
          first := Some(env.prepare(t.node.name));
        } else if first.value.evidence.value.clusterId != evidence.clusterId
               || first.value.evidence.value.targetImage != evidence.targetImage {
          agree := false;
          return;
        }
      } else {
        NothingToPrepare(t, opts, env, part);
      }
    }
  }

  lemma MovedStep(cluster: Cluster, ts: seq<Target>, k: nat, target: string)
    requires k < |ts|
    ensures Moved(cluster, ts[..k + 1], target) == Moved(cluster, ts[..k], target)[ts[k].node.name := target]
  {
    assert ts[..k + 1][..k] == ts[..k];
  }

  lemma PlannedStep(ts: seq<Target>, k: nat)
    requires k < |ts|
    ensures Planned(ts)[..k + 1] == Planned(ts)[..k] + [(ts[k].node.name, ts[k].upgradeRole)]
  {
  }

  ghost predicate NodeWorks(t: Target, opts: Options, env: Env) {
    Works(t, opts.cordon, Uploads(t, opts), env.apply(t.node.name))
  }

  /** The node runs the target after this run asked it to: completion may be uncertain. */
  ghost predicate Lands(t: Target, opts: Options, env: Env) {
    var reply := env.apply(t.node.name);
    Asks(t, opts, env) && (reply.lands || Succeeds(reply))
  }

  /** The upgrade request itself is sent. */
  ghost predicate Asks(t: Target, opts: Options, env: Env) {
    var reply := env.apply(t.node.name);
    Proceeds(opts.cordon, reply) && (Uploads(t, opts) ==> reply.uploads)
  }

  ghost function RequestsOf(t: Target, opts: Options, env: Env): seq<Event> {
    NodeRequests(t, opts.cordon, Uploads(t, opts), env.apply(t.node.name))
  }

  ghost function RequestPart(opts: Options, env: Env): Target -> seq<Event> {
    (t: Target) => RequestsOf(t, opts, env)
  }

  /** `part` is what is sent to upgrade a target. */
  ghost predicate IsRequest(part: Target -> seq<Event>, opts: Options, env: Env) {
    forall t {:trigger RequestsOf(t, opts, env)} :: part(t) == RequestsOf(t, opts, env)
  }

  /** The requests of the first `k` targets. */
  ghost function Requests(ts: seq<Target>, k: nat, opts: Options, env: Env): seq<Event>
    requires k <= |ts|
  {
    Joined(ts, k, RequestPart(opts, env))
  }

  /** The first `finished` targets work, and the next one, if there is one, does not. */
  ghost predicate StopsAt(targets: seq<Target>, finished: nat, opts: Options, env: Env) {
    && finished <= |targets|
    && (forall k | 0 <= k < finished :: NodeWorks(targets[k], opts, env))
    && (finished < |targets| ==> !NodeWorks(targets[finished], opts, env))
  }

  /** The targets that were begun: those that work and the one that does not. */
  ghost function Begun(targets: seq<Target>, finished: nat): (k: nat)
    requires finished <= |targets|
    ensures k <= |targets|
  {
    if finished < |targets| then finished + 1 else finished
  }

  /** How many targets run the target version when the run ends. */
  ghost function Landed(targets: seq<Target>, finished: nat, opts: Options, env: Env): (k: nat)
    requires finished <= |targets|
    ensures finished <= k <= Begun(targets, finished)
  {
    if finished < |targets| && Lands(targets[finished], opts, env) then finished + 1 else finished
  }

  method UpgradeNode(t: Target, opts: Options, env: Env, ghost part: Target -> seq<Event>)
    returns (ok: bool, landed: bool, requests: seq<Event>)
    requires IsRequest(part, opts, env)
    ensures ok <==> NodeWorks(t, opts, env)
    ensures ok ==> landed
    ensures landed <==> Lands(t, opts, env)
    ensures requests == part(t)
  {
    assert part(t) == RequestsOf(t, opts, env);
    var sent;
    var upload := opts.artifact.Some? && t.node.role == Worker;
    ok, landed, sent, requests := RunTarget(t, opts.cordon, upload, env.apply(t.node.name));
  }

  /** Upgrade the targets one at a time and stop at the first node that does not succeed. */
  method UpgradeAll(
      targets: seq<Target>, cluster: Cluster, target: string, opts: Options, env: Env, ghost part: Target -> seq<Event>)
    returns (after: Cluster, finished: nat, events: seq<Event>)
    requires IsRequest(part, opts, env)
    ensures StopsAt(targets, finished, opts, env)
    ensures events == Joined(targets, Begun(targets, finished), part)
    ensures after == Moved(cluster, targets[..Landed(targets, finished, opts, env)], target)
  {
    after, finished, events := cluster, 0, [];
    assert after == Moved(cluster, targets[..0], target);
    while finished < |targets|
      invariant finished <= |targets|
      invariant after == Moved(cluster, targets[..finished], target)
      invariant events == Joined(targets, finished, part)
      invariant forall k | 0 <= k < finished :: NodeWorks(targets[k], opts, env)
    {
      var t := targets[finished];
      var ok, landed, requests := UpgradeNode(t, opts, env, part);
      events := events + requests;
      if landed {
        after := after[t.node.name := target];
        MovedStep(cluster, targets, finished, target);
      }
      if !ok {
        return;
      }
      finished := finished + 1;
    }
  }

  /** The requests name the planned nodes with their roles, in order: the ones that work are all asked,
      and of the rest at most the one that was begun. */
  lemma RequestsFollowPlan(targets: seq<Target>, finished: nat, opts: Options, env: Env)
    requires StopsAt(targets, finished, opts, env)
    ensures var asked := if finished < |targets| && Asks(targets[finished], opts, env) then finished + 1 else finished;
      Upgraded(Requests(targets, Begun(targets, finished), opts, env)) == Planned(targets)[..asked]
  {
    var part, asks, asked := RequestPart(opts, env), AsksOf(opts, env), UpgradedOf();
    PartAsksOnce(opts, env);
    forall j | 0 <= j < finished ensures asks(targets[j]) {
      assert NodeWorks(targets[j], opts, env);
    }
    JoinedMaps(targets, finished, part, asks, asked);
    if finished < |targets| {
      NextMaps(targets, finished, part, asks, asked);
    }
  }

  ghost function UpgradedOf(): seq<Event> -> seq<(string, UpgradeRole)> {
    (trace: seq<Event>) => Upgraded(trace)
  }

  ghost function AsksOf(opts: Options, env: Env): Target -> bool {
    (t: Target) => Asks(t, opts, env)
  }

  lemma PartAsksOnce(opts: Options, env: Env)
    ensures UpgradedOf()([]) == []
    ensures forall a, b :: UpgradedOf()(a + b) == UpgradedOf()(a) + UpgradedOf()(b)
    ensures forall t ::
      UpgradedOf()(RequestPart(opts, env)(t)) == if AsksOf(opts, env)(t) then [(t.node.name, t.upgradeRole)] else []
  {
    forall t ensures Upgraded(RequestPart(opts, env)(t)) ==
      if Asks(t, opts, env) then [(t.node.name, t.upgradeRole)] else []
    {
      AskedOnce(t, opts, env);
    }
    forall a, b ensures Upgraded(a + b) == Upgraded(a) + Upgraded(b) {
      UpgradedConcat(a, b);
    }
  }

  /** Over working targets the requests are asked for one by one; `asked` reads them off a trace. */
  lemma {:induction false} JoinedMaps(
      targets: seq<Target>, k: nat, part: Target -> seq<Event>, asks: Target -> bool,
      asked: seq<Event> -> seq<(string, UpgradeRole)>)
    requires k <= |targets| && asked([]) == [] && forall a, b :: asked(a + b) == asked(a) + asked(b)
    requires forall t :: asked(part(t)) == if asks(t) then [(t.node.name, t.upgradeRole)] else []
    requires forall j | 0 <= j < k :: asks(targets[j])
    ensures asked(Joined(targets, k, part)) == Planned(targets)[..k]
  {
    if k > 0 {
      JoinedMaps(targets, k - 1, part, asks, asked);
      NextMaps(targets, k - 1, part, asks, asked);
    }
  }

  lemma NextMaps(
      targets: seq<Target>, k: nat, part: Target -> seq<Event>, asks: Target -> bool,
      asked: seq<Event> -> seq<(string, UpgradeRole)>)
    requires k < |targets| && asked(Joined(targets, k, part)) == Planned(targets)[..k]
    requires forall a, b :: asked(a + b) == asked(a) + asked(b)
    requires forall t :: asked(part(t)) == if asks(t) then [(t.node.name, t.upgradeRole)] else []
    ensures asked(Joined(targets, k + 1, part)) == Planned(targets)[..if asks(targets[k]) then k + 1 else k]
  {
    PlannedStep(targets, k);
  }

  lemma AskedOnce(t: Target, opts: Options, env: Env)
    ensures Upgraded(RequestsOf(t, opts, env)) == if Asks(t, opts, env) then [(t.node.name, t.upgradeRole)] else []
  {
    var reply := env.apply(t.node.name);
    NodeTraceUpgrades(
      t, Cordons(opts.cordon, reply), Uploads(t, opts) && Proceeds(opts.cordon, reply), Asks(t, opts, env),
      Cordons(opts.cordon, reply) && reply.cordons);
  }

  /** Every cordon that took effect is followed by an uncordon of that node before another node is cordoned,
      and no node is uncordoned but one that this run cordoned. */
  ghost predicate SchedulingRestored(trace: seq<Event>, env: Env) {
    && (forall i | 0 <= i < |trace| && trace[i].CordonSent? && env.apply(trace[i].node).cordons ::
          RestoredAfter(trace, i))
    && (forall i | 0 <= i < |trace| && trace[i].UncordonSent? :: CordonedBefore(trace, i, env))
  }

  ghost predicate RestoredAfter(trace: seq<Event>, i: nat)
    requires i < |trace| && trace[i].CordonSent?
  {
    exists j ::
      && i < j < |trace| && trace[j] == UncordonSent(trace[i].node)
      && forall k | i < k < j :: !trace[k].CordonSent?
  }

  ghost predicate CordonedBefore(trace: seq<Event>, i: nat, env: Env)
    requires i < |trace| && trace[i].UncordonSent?
  {
    var n := trace[i].node;
    && env.apply(n).cordons && !env.apply(n).unschedulable
    && exists j :: 0 <= j < i && trace[j] == CordonSent(n)
  }

  lemma SchedulingThen(a: seq<Event>, b: seq<Event>, env: Env)
    requires SchedulingRestored(a, env) && SchedulingRestored(b, env)
    ensures SchedulingRestored(a + b, env)
  {
    var t := a + b;
    forall i | 0 <= i < |t| && t[i].CordonSent? && env.apply(t[i].node).cordons ensures RestoredAfter(t, i) {
      if i < |a| {
        assert t[i] == a[i];
        RestoredEarlier(a, b, i);
      } else {
        assert t[i] == b[i - |a|];
        RestoredLater(a, b, i - |a|);
      }
    }
    forall i | 0 <= i < |t| && t[i].UncordonSent? ensures CordonedBefore(t, i, env) {
      if i < |a| {
        CordonedEarlier(a, b, i, env);
      } else {
        CordonedLater(a, b, i - |a|, env);
      }
    }
  }

  lemma RestoredEarlier(a: seq<Event>, b: seq<Event>, i: nat)
    requires i < |a| && a[i].CordonSent? && RestoredAfter(a, i)
    ensures RestoredAfter(a + b, i)
  {
    var j :| i < j < |a| && a[j] == UncordonSent(a[i].node) && forall k | i < k < j :: !a[k].CordonSent?;
    assert (a + b)[j] == UncordonSent(a[i].node) && forall k | i < k < j :: (a + b)[k] == a[k];
  }

  lemma RestoredLater(a: seq<Event>, b: seq<Event>, i: nat)
    requires i < |b| && b[i].CordonSent? && RestoredAfter(b, i)
    ensures RestoredAfter(a + b, |a| + i)
  {
    var j :| i < j < |b| && b[j] == UncordonSent(b[i].node) && forall k | i < k < j :: !b[k].CordonSent?;
    var t := a + b;
    assert t[|a| + j] == UncordonSent(b[i].node) && forall k | |a| + i < k < |a| + j :: t[k] == b[k - |a|];
  }

  lemma CordonedEarlier(a: seq<Event>, b: seq<Event>, i: nat, env: Env)
    requires i < |a| && a[i].UncordonSent? && CordonedBefore(a, i, env)
    ensures CordonedBefore(a + b, i, env)
  {
    var j :| 0 <= j < i && a[j] == CordonSent(a[i].node);
    assert (a + b)[j] == CordonSent(a[i].node);
  }

  lemma CordonedLater(a: seq<Event>, b: seq<Event>, i: nat, env: Env)
    requires i < |b| && b[i].UncordonSent? && CordonedBefore(b, i, env)
    ensures CordonedBefore(a + b, |a| + i, env)
  {
    var j :| 0 <= j < i && b[j] == CordonSent(b[i].node);
    assert (a + b)[|a| + j] == CordonSent(b[i].node);
  }

  lemma RequestsRestore(ts: seq<Target>, k: nat, opts: Options, env: Env)
    requires k <= |ts|
    ensures SchedulingRestored(Requests(ts, k, opts, env), env)
  {
    var restored := (trace: seq<Event>) => SchedulingRestored(trace, env);
    forall t ensures restored(RequestPart(opts, env)(t)) {
      NodeRestores(t, opts, env);
    }
    forall a, b | restored(a) && restored(b) ensures restored(a + b) {
      SchedulingThen(a, b, env);
    }
    JoinedKeeps(ts, k, RequestPart(opts, env), restored);
  }

  lemma {:induction false} JoinedKeeps(
      ts: seq<Target>, k: nat, part: Target -> seq<Event>, good: seq<Event> -> bool)
    requires k <= |ts| && good([]) && forall t :: good(part(t))
    requires forall a, b | good(a) && good(b) :: good(a + b)
    ensures good(Joined(ts, k, part))
  {
    if k > 0 {
      JoinedKeeps(ts, k - 1, part, good);
    }
  }

  lemma NodeRestores(t: Target, opts: Options, env: Env)
    ensures SchedulingRestored(RequestsOf(t, opts, env), env)
  {
    var name, r := t.node.name, RequestsOf(t, opts, env);
    if Cordons(opts.cordon, env.apply(name)) && env.apply(name).cordons {
      assert r[0] == CordonSent(name) && r[|r| - 1] == UncordonSent(name);
      assert forall k | 0 < k < |r| - 1 :: !r[k].CordonSent? && !r[k].UncordonSent?;
    }
  }

  /** What the gate sent and why it stopped, if it did. */
  ghost predicate GateRan(targets: seq<Target>, opts: Options, env: Env, gate: seq<Event>, stop: Option<Outcome>) {
    if exists t :: t in targets && !DryRunAccepted(env.dryRun(t.node.name)) then
      && stop == Some(DryRunRefused)
      && exists k: nat :: FirstRefusal(targets, env, k) && gate == DryRuns(targets[..k + 1])
    else if !CleanTo(targets, |targets|, opts, env) then
      exists k: nat ::
        && FirstTrouble(targets, opts, env, k)
        && gate == DryRuns(targets) + Preparations(targets, k + 1, opts, env)
        && stop == Some(
             if PreparedBy(env.prepare(targets[k].node.name), opts.plan, opts.artifact.Some?) then PreparationsDisagree
             else PreparationFailed)
    else
      && gate == DryRuns(targets) + Preparations(targets, |targets|, opts, env)
      && stop == if opts.plan then Some(OnlyPlanned) else None
  }

  ghost predicate FirstRefusal(targets: seq<Target>, env: Env, k: nat) {
    && k < |targets| && !DryRunAccepted(env.dryRun(targets[k].node.name))
    && forall j | 0 <= j < k :: DryRunAccepted(env.dryRun(targets[j].node.name))
  }

  /** Up to `k` preparations are complete and agree, with `k` they are not. */
  ghost predicate FirstTrouble(targets: seq<Target>, opts: Options, env: Env, k: nat) {
    k < |targets| && CleanTo(targets, k, opts, env) && !CleanTo(targets, k + 1, opts, env)
  }

  /** Dry runs, then preparations; `stop` is the reason not to go on. */
  method PassGate(targets: seq<Target>, opts: Options, env: Env) returns (gate: seq<Event>, stop: Option<Outcome>)
    ensures GateRan(targets, opts, env, gate, stop)
    ensures stop.None? <==> Gate(targets, opts, env) && !opts.plan
    ensures stop.None? ==>
      && (forall t | t in targets :: DryRunSent(t.node.name) in gate)
      && (forall t | t in targets && t.node.role == ControlPlane :: PrepareSent(t.node.name, false) in gate)
  {
    ghost var d, k;
    var accepted, dryRuns;
    accepted, dryRuns, d := DryRunAll(targets, env);
    gate := dryRuns;
    if !accepted {
      assert FirstRefusal(targets, env, d - 1);
      return gate, Some(DryRunRefused);
    }
    assert targets[..|targets|] == targets;
    var prepared, agree, preparations;
    prepared, agree, preparations, k := PrepareAll(targets, opts, env, PreparePart(opts, env));
    gate := gate + preparations;
    if !(prepared && agree) {
      stop := Some(if prepared then PreparationsDisagree else PreparationFailed);
      PrepareStopped(targets, opts, env, k, gate, stop);
      return;
    }
    GateComplete(targets, opts, env);
    if opts.plan {
      return gate, Some(OnlyPlanned);
    }
    return gate, None;
  }

  lemma PrepareStopped(targets: seq<Target>, opts: Options, env: Env, k: nat, gate: seq<Event>, stop: Option<Outcome>)
    requires 0 < k <= |targets| && forall t | t in targets :: DryRunAccepted(env.dryRun(t.node.name))
    requires CleanTo(targets, k - 1, opts, env) && !CleanTo(targets, k, opts, env)
    requires gate == DryRuns(targets) + Preparations(targets, k, opts, env)
    requires var prepared := PreparedBy(env.prepare(targets[k - 1].node.name), opts.plan, opts.artifact.Some?);
      stop == Some(if prepared then PreparationsDisagree else PreparationFailed)
    ensures GateRan(targets, opts, env, gate, stop) && !Gate(targets, opts, env)
  {
    CleanMonotone(targets, k, opts, env);
    assert targets[..|targets|] == targets;
    assert FirstTrouble(targets, opts, env, k - 1);
  }

  lemma CleanMonotone(targets: seq<Target>, k: nat, opts: Options, env: Env)
    requires k <= |targets| && !CleanTo(targets, k, opts, env)
    ensures !CleanTo(targets, |targets|, opts, env)
  {
    assert forall t | t in targets[..k] :: t in targets[..|targets|];
  }

  /** All gate requests are there once the gate is passed. */
  lemma GateComplete(targets: seq<Target>, opts: Options, env: Env)
    requires CleanTo(targets, |targets|, opts, env)
    ensures forall t | t in targets :: DryRunSent(t.node.name) in DryRuns(targets)
    ensures forall t | t in targets && t.node.role == ControlPlane ::
      PrepareSent(t.node.name, opts.plan) in Preparations(targets, |targets|, opts, env)
  {
    assert targets[..|targets|] == targets;
    forall t | t in targets ensures DryRunSent(t.node.name) in DryRuns(targets) {
      var i :| 0 <= i < |targets| && targets[i] == t;
      assert DryRuns(targets)[i] == DryRunSent(t.node.name);
    }
    PreparationsAll(targets, opts, env);
  }

  lemma PreparationsAll(ts: seq<Target>, opts: Options, env: Env)
    requires forall t | t in ts && t.node.role == ControlPlane ::
      opts.artifact.Some? ==> env.prepare(t.node.name).staged
    ensures forall i | 0 <= i < |ts| && ts[i].node.role == ControlPlane ::
      PrepareSent(ts[i].node.name, opts.plan) in Preparations(ts, |ts|, opts, env)
  {
    var part := PreparePart(opts, env);
    forall i | 0 <= i < |ts| && ts[i].node.role == ControlPlane
      ensures PrepareSent(ts[i].node.name, opts.plan) in Joined(ts, |ts|, part)
    {
      assert ts[i] in ts && PrepareSent(ts[i].node.name, opts.plan) in part(ts[i]);
      JoinedHas(ts, |ts|, part, i, PrepareSent(ts[i].node.name, opts.plan));
    }
  }

  lemma PreparationsOnly(ts: seq<Target>, k: nat, opts: Options, env: Env)
    requires k <= |ts|
    ensures Quiet(Preparations(ts, k, opts, env))
  {
    JoinedAll(ts, k, PreparePart(opts, env), (e: Event) => e.PrepareSent? || e.UploadSent?);
  }

  ghost predicate Quiet(gate: seq<Event>) {
    forall e | e in gate :: e.DryRunSent? || e.PrepareSent? || e.UploadSent?
  }

  /** The gate asks no node to upgrade and leaves scheduling alone. */
  lemma GateQuiet(targets: seq<Target>, opts: Options, env: Env, gate: seq<Event>, stop: Option<Outcome>)
    requires GateRan(targets, opts, env, gate, stop)
    ensures Quiet(gate)
  {
    if exists t :: t in targets && !DryRunAccepted(env.dryRun(t.node.name)) {
      var k: nat :| FirstRefusal(targets, env, k) && gate == DryRuns(targets[..k + 1]);
      DryRunsQuiet(targets[..k + 1]);
    } else {
      DryRunsQuiet(targets);
      if !CleanTo(targets, |targets|, opts, env) {
        var k: nat :| FirstTrouble(targets, opts, env, k)
          && gate == DryRuns(targets) + Preparations(targets, k + 1, opts, env);
        PreparationsOnly(targets, k + 1, opts, env);
        QuietThen(DryRuns(targets), Preparations(targets, k + 1, opts, env));
      } else {
        PreparationsOnly(targets, |targets|, opts, env);
        QuietThen(DryRuns(targets), Preparations(targets, |targets|, opts, env));
      }
    }
  }

  lemma QuietThen(a: seq<Event>, b: seq<Event>)
    requires Quiet(a) && Quiet(b)
    ensures Quiet(a + b)
  {
  }

  lemma DryRunsQuiet(ts: seq<Target>)
    ensures Quiet(DryRuns(ts))
  {
  }

  lemma QuietMeans(gate: seq<Event>, env: Env)
    requires Quiet(gate)
    ensures Upgraded(gate) == [] && SchedulingRestored(gate, env)
  {
    assert forall i | 0 <= i < |gate| :: gate[i] in gate;
    UpgradedNone(gate);
  }

  /** A whole run. Whatever the environment replies, no upgrade request is sent before the gate,
      none with `plan`, requests follow the plan's order, and the cluster moves along it. */
  method Upgrade(
      nodes: seq<Node>, external: bool, cluster: Cluster, target: string, opts: Options, env: Env)
    returns (after: Cluster, targets: seq<Target>, finished: nat, trace: seq<Event>, outcome: Outcome)
    requires Covers(cluster, nodes)
    ensures Covers(cluster, Ordered(nodes))
    ensures Reported(Connected(nodes, external, cluster, env.inspect, target),
      targets, cluster, target, opts, env, after, finished, trace, outcome)
    ensures !outcome.Refused? ==> Orderly(targets, cluster, target, opts, env, after, finished, trace, outcome)
    ensures Run(Ordered(nodes), cluster, after, target)
  {
    after, targets, finished, trace := cluster, [], 0, [];
    SameMembers(nodes, Ordered(nodes));
    assert Moved(cluster, [], target) == cluster;
    var planned := ConnectTargets(nodes, external, cluster, env.inspect, target);
    if planned.Err? {
      return after, targets, finished, trace, Refused(planned.error);
    }
    targets := planned.value;
    PlanNodes(Ordered(nodes), cluster, target);
    after, finished, trace, outcome := RunPlan(targets, cluster, target, opts, env);
    RanMeans(targets, cluster, target, opts, env, after, finished, trace, outcome);
    StoppedRun(Ordered(nodes), cluster, after, target, targets, finished);
  }

  /** What the run of a plan did: nothing for an image that fits not every node, or an empty plan; otherwise
      the gate and, once it is passed, the requests of each node up to the first that does not work. */
  ghost predicate Ran(
      targets: seq<Target>, cluster: Cluster, target: string, opts: Options, env: Env,
      after: Cluster, finished: nat, trace: seq<Event>, outcome: Outcome)
  {
    if !Fitting(targets, opts, env) || targets == [] then
      && outcome == (if !Fitting(targets, opts, env) then ArchitectureMismatch else NothingToDo)
      && finished == 0 && trace == [] && after == cluster
    else if !Gate(targets, opts, env) || opts.plan then
      GateRan(targets, opts, env, trace, Some(outcome)) && finished == 0 && after == cluster
    else
      && StopsAt(targets, finished, opts, env)
      && outcome == (if finished == |targets| then Complete else Stopped)
      && after == Moved(cluster, targets[..Landed(targets, finished, opts, env)], target)
      && exists gate ::
           && GateRan(targets, opts, env, gate, None)
           && trace == gate + Requests(targets, Begun(targets, finished), opts, env)
  }

  /** What a run never does, whatever the environment replies: upgrade requests name the planned nodes with
      their planned roles, in order, and follow all gate requests; scheduling is restored; a complete run
      moved every target. */
  ghost predicate Orderly(
      targets: seq<Target>, cluster: Cluster, target: string, opts: Options, env: Env,
      after: Cluster, finished: nat, trace: seq<Event>, outcome: Outcome)
  {
    && finished <= |targets| && Upgraded(trace) <= Planned(targets)
    && finished <= |Upgraded(trace)| <= finished + 1
    && (after == Moved(cluster, targets[..finished], target)
        || (outcome == Stopped && |Upgraded(trace)| == finished + 1
            && after == Moved(cluster, targets[..finished + 1], target)))
    && TraceSafe(trace, targets, opts, env) && SchedulingRestored(trace, env)
    && (outcome == Complete ==> finished == |targets| && after == Moved(cluster, targets, target))
    && (outcome.Complete? || outcome.Stopped? || (finished == 0 && after == cluster && Upgraded(trace) == []))
  }

  lemma RanMeans(
      targets: seq<Target>, cluster: Cluster, target: string, opts: Options, env: Env,
      after: Cluster, finished: nat, trace: seq<Event>, outcome: Outcome)
    requires Ran(targets, cluster, target, opts, env, after, finished, trace, outcome)
    ensures Orderly(targets, cluster, target, opts, env, after, finished, trace, outcome)
  {
    if Fitting(targets, opts, env) && targets != [] && Gate(targets, opts, env) && !opts.plan {
      var gate :| GateRan(targets, opts, env, gate, None)
        && trace == gate + Requests(targets, Begun(targets, finished), opts, env);
      GateQuiet(targets, opts, env, gate, None);
      PassedMeans(targets, cluster, target, finished, opts, env, gate);
    } else {
      if Fitting(targets, opts, env) && targets != [] {
        GateQuiet(targets, opts, env, trace, Some(outcome));
      }
      QuietOrderly(targets, cluster, target, opts, env, trace, outcome);
    }
  }

  lemma QuietOrderly(
      targets: seq<Target>, cluster: Cluster, target: string, opts: Options, env: Env,
      trace: seq<Event>, outcome: Outcome)
    requires Quiet(trace) && !outcome.Complete? && !outcome.Stopped?
    ensures Orderly(targets, cluster, target, opts, env, cluster, 0, trace, outcome)
  {
    QuietMeans(trace, env);
    assert targets[..0] == [];
    assert forall i | 0 <= i < |trace| :: trace[i] in trace;
  }

  /** After the gate is passed. */
  lemma PassedMeans(
      targets: seq<Target>, cluster: Cluster, target: string, finished: nat, opts: Options, env: Env, gate: seq<Event>)
    requires Gate(targets, opts, env) && !opts.plan && StopsAt(targets, finished, opts, env) && Quiet(gate)
    requires gate == DryRuns(targets) + Preparations(targets, |targets|, opts, env)
    ensures Orderly(
      targets, cluster, target, opts, env, Moved(cluster, targets[..Landed(targets, finished, opts, env)], target),
      finished, gate + Requests(targets, Begun(targets, finished), opts, env),
      if finished == |targets| then Complete else Stopped)
  {
    var begun, landed := Begun(targets, finished), Landed(targets, finished, opts, env);
    var trace := gate + Requests(targets, begun, opts, env);
    PassedTrace(targets, begun, opts, env, gate);
    assert Upgraded(trace) <= Planned(targets) && finished <= |Upgraded(trace)| <= finished + 1
      && (landed == finished + 1 ==> |Upgraded(trace)| == finished + 1) by {
      RequestsFollowPlan(targets, finished, opts, env);
    }
    assert targets[..|targets|] == targets;
  }

  lemma PassedTrace(targets: seq<Target>, k: nat, opts: Options, env: Env, gate: seq<Event>)
    requires Gate(targets, opts, env) && !opts.plan && Quiet(gate) && k <= |targets|
    requires gate == DryRuns(targets) + Preparations(targets, |targets|, opts, env)
    ensures Upgraded(gate + Requests(targets, k, opts, env)) == Upgraded(Requests(targets, k, opts, env))
    ensures SchedulingRestored(gate + Requests(targets, k, opts, env), env)
    ensures TraceSafe(gate + Requests(targets, k, opts, env), targets, opts, env)
  {
    assert targets[..|targets|] == targets;
    QuietMeans(gate, env);
    GateComplete(targets, opts, env);
    RequestsRestore(targets, k, opts, env);
    UpgradedConcat(gate, Requests(targets, k, opts, env));
    SchedulingThen(gate, Requests(targets, k, opts, env), env);
    GatedTrace(gate, Requests(targets, k, opts, env), targets, opts, env);
  }

  /** A refused plan stops the run with that error before anything is sent; any other is run. */
  ghost predicate Reported(
      plan: Result<seq<Target>, PlanError>, targets: seq<Target>, cluster: Cluster, target: string,
      opts: Options, env: Env, after: Cluster, finished: nat, trace: seq<Event>, outcome: Outcome)
  {
    match plan
    case Err(e) => outcome == Refused(e) && targets == [] && trace == [] && after == cluster
    case Ok(ts) =>
      targets == ts && Ran(targets, cluster, target, opts, env, after, finished, trace, outcome)
  }

  /** A run that ends with nothing left to do has moved its whole plan. */
  lemma EndMoves(
      targets: seq<Target>, cluster: Cluster, target: string, opts: Options, env: Env,
      after: Cluster, finished: nat, trace: seq<Event>, outcome: Outcome)
    requires Ran(targets, cluster, target, opts, env, after, finished, trace, outcome)
    requires outcome == Complete || outcome == NothingToDo
    ensures after == Moved(cluster, targets, target)
  {
    RanMeans(targets, cluster, target, opts, env, after, finished, trace, outcome);
  }

  /** A local image fits every node it will be sent to. */
  ghost predicate Fitting(targets: seq<Target>, opts: Options, env: Env) {
    opts.artifact.None? || forall t | t in targets :: env.architecture(t.node.name) == opts.artifact.value
  }

  /** Where a run stopped is a run of the plan. */
  lemma StoppedRun(
      order: seq<Node>, cluster: Cluster, after: Cluster, target: string, targets: seq<Target>, finished: nat)
    requires Covers(cluster, order) && Plan(order, cluster, target) == Ok(targets) && finished <= |targets|
    requires after == Moved(cluster, targets[..finished], target)
          || (finished < |targets| && after == Moved(cluster, targets[..finished + 1], target))
    ensures Run(order, cluster, after, target)
  {
    var k := if after == Moved(cluster, targets[..finished], target) then finished else finished + 1;
    assert after == Moved(cluster, targets[..k], target);
  }

  /** The run of a plan: gate, then one node after the other. */
  method RunPlan(targets: seq<Target>, cluster: Cluster, target: string, opts: Options, env: Env)
    returns (after: Cluster, finished: nat, trace: seq<Event>, outcome: Outcome)
    requires forall t | t in targets :: t.node.name in cluster
    ensures Ran(targets, cluster, target, opts, env, after, finished, trace, outcome)
  {
    after, finished, trace := cluster, 0, [];
    var architectures := ArchitecturesMatch(targets, opts, env);
    if !architectures {
      return after, finished, trace, ArchitectureMismatch;
    }
    if targets == [] {
      return after, finished, trace, NothingToDo;
    }
    var gate, stop := PassGate(targets, opts, env);
    if stop.Some? {
      return after, finished, gate, stop.value;
    }
    var upgrades: seq<Event>;
    after, finished, upgrades := UpgradeAll(targets, cluster, target, opts, env, RequestPart(opts, env));
    trace := gate + upgrades;
    outcome := if finished == |targets| then Complete else Stopped;
  }

  /** A local image must fit every node it will be sent to. */
  method ArchitecturesMatch(targets: seq<Target>, opts: Options, env: Env) returns (ok: bool)
    ensures ok <==> Fitting(targets, opts, env)
  {
    if opts.artifact.Some? {
      for i := 0 to |targets|
        invariant forall k | 0 <= k < i :: env.architecture(targets[k].node.name) == opts.artifact.value
      {
        if env.architecture(targets[i].node.name) != opts.artifact.value {
          return false;
        }
      }
    }
    return true;
  }

  /** A run whose first part holds all gate requests and no upgrade is safe. */
  lemma GatedTrace(gate: seq<Event>, rest: seq<Event>, targets: seq<Target>, opts: Options, env: Env)
    requires !opts.plan && Gate(targets, opts, env)
    requires forall e | e in gate :: !e.UpgradeSent?
    requires forall t | t in targets :: DryRunSent(t.node.name) in gate
    requires forall t | t in targets && t.node.role == ControlPlane :: PrepareSent(t.node.name, false) in gate
    ensures TraceSafe(gate + rest, targets, opts, env)
  {
    var trace := gate + rest;
    forall i | 0 <= i < |trace| && trace[i].UpgradeSent?
      ensures forall e | e in gate :: e in trace[..i]
    {
      assert forall k | 0 <= k < |gate| :: trace[k] == gate[k] && gate[k] in gate;
      assert trace[..i] == gate + trace[|gate|..i];
    }
  }

  /** Planned targets are nodes of the fleet that are not on the target version. */
  lemma PlanNodes(order: seq<Node>, cluster: Cluster, target: string)
    requires Covers(cluster, order)
    ensures Plan(order, cluster, target).Ok? ==>
      forall t | t in Plan(order, cluster, target).value ::
        t.node in order && cluster[t.node.name] == t.source != target
  {
    PendingFrom(order, cluster, target);
    AssignNodes(Pending(order, cluster, target), cluster, AnyAt(order, cluster, target, ControlPlane));
  }

  lemma {:induction false} AssignNodes(pending: seq<Node>, cluster: Cluster, applied: bool)
    requires Covers(cluster, pending)
    ensures forall i | 0 <= i < |pending| ::
      Assign(pending, cluster, applied)[i].node == pending[i]
      && Assign(pending, cluster, applied)[i].source == cluster[pending[i].name]
  {
    if pending != [] {
      AssignNodes(pending[1..], cluster, applied || pending[0].role == ControlPlane);
    }
  }
}
