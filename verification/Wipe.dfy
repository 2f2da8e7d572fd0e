/** Wiping one node: leave Kubernetes and etcd cleanly, then submit the destructive reset. The
    run stops at the first failure and is meant to be repeated. Node agents and kubectl are an
    environment; a failed request may still have taken effect. */
module Wipe {
  import opened Results
  import opened Text
  import opened Inventory
  import opened Etcd

  datatype Event =
    | Cordon(node: string) | Drain(node: string)
    | RemoveMember(id: string)
    | DeleteNode(node: string)
    | Reset(node: string, enrolled: bool)

  /** Etcd membership, Kubernetes Node objects, and nodes whose reset was accepted. */
  datatype World = World(members: seq<Member>, objects: set<string>, wiped: set<string>)

  datatype Options = Options(planOnly: bool, noWait: bool, kubeconfig: string)

  /** `lands` tells whether a request whose outcome the client never learns took effect. */
  datatype Reply = NotSent | Fails(lands: bool) | Succeeds

  datatype ResetReply = ResetReply(connects: bool, accepted: bool, finishes: bool, closes: bool, lands: bool)

  datatype Env = Env(
    preflight: bool, state: string, inventoryReads: bool,
    statusFrom: Entry -> Option<Status>, peerUrl: string -> string,
    removal: Reply, delete: Reply, reset: string -> ResetReply)

  datatype Outcome = Refused | Planned | CleanupFailed | ResetFailed | Done

  predicate Enrolled(env: Env) {
    Trim(env.state) != "not-configured"
  }

  predicate NeedsEtcd(target: Entry, env: Env) {
    target.role == CONTROL_PLANE && Enrolled(env)
  }

  /** Everything a complete run sends, in order. */
  ghost function Script(target: Entry, enrolled: bool, plan: Option<Plan>): seq<Event> {
    if !enrolled then [Reset(target.name, false)]
    else
      [Cordon(target.name), Drain(target.name)]
      + (if plan.Some? && plan.value.decision.Remove? then [RemoveMember(plan.value.decision.member.id)] else [])
      + [DeleteNode(target.name), Reset(target.name, true)]
  }

  /** Every report a coordinator gives agrees with the membership as it is. */
  ghost predicate Truthful(w: World, env: Env) {
    forall e :: env.statusFrom(e).Some? ==>
      Consistent(env.statusFrom(e).value) && SameButHealth(w.members, env.statusFrom(e).value.members)
  }

  /** No two members share the target's name or peer URL between them. */
  ghost predicate Unambiguous(ms: seq<Member>, name: string, peer: string) {
    forall a, b | a in ms && b in ms && Touches(a, name, peer) && Touches(b, name, peer) :: a == b
  }

  // ---------------------------------------------------------------------------------------
  // Submitting resets

  ghost predicate ResetWorks(r: ResetReply, known: bool, noWait: bool) {
    r.connects && known && r.accepted && (noWait || r.finishes) && r.closes
  }

  ghost predicate ResetLands(t: Entry, known: set<string>, reply: string -> ResetReply) {
    t.name in known && reply(t.name).connects && (reply(t.name).accepted || reply(t.name).lands)
  }

  /** One failing node does not keep the others from being asked; the run succeeds exactly when
      every node does. */
  method SubmitResets(
      targets: seq<Entry>, known: set<string>, noWait: bool, enrolled: bool, reply: string -> ResetReply)
    returns (ok: bool, sent: seq<Event>, landed: set<string>)
    ensures sent == Requested(targets, known, enrolled, reply)
    ensures ok <==> forall t | t in targets :: ResetWorks(reply(t.name), t.name in known, noWait)
    ensures landed == set t | t in targets && ResetLands(t, known, reply) :: t.name
  {
    ok, sent, landed := true, [], {};
    for i := 0 to |targets|
      invariant sent == Requested(targets[..i], known, enrolled, reply)
      invariant ok <==> forall t | t in targets[..i] :: ResetWorks(reply(t.name), t.name in known, noWait)
      invariant landed == set t | t in targets[..i] && ResetLands(t, known, reply) :: t.name
    {
      var t := targets[i];
      RequestedStep(targets, i, known, enrolled, reply);
      assert targets[..i + 1] == targets[..i] + [t];
      var works, request, lands := SubmitReset(t, known, noWait, enrolled, reply);
      ok := ok && works;
      sent := sent + request;
      landed := landed + lands;
    }
    assert targets[..|targets|] == targets;
  }

  /** Connect, submit, wait unless told not to, close. */
  method SubmitReset(t: Entry, known: set<string>, noWait: bool, enrolled: bool, reply: string -> ResetReply)
    returns (ok: bool, sent: seq<Event>, landed: set<string>)
    ensures sent == if reply(t.name).connects && t.name in known then [Reset(t.name, enrolled)] else []
    ensures ok <==> ResetWorks(reply(t.name), t.name in known, noWait)
    ensures landed == if ResetLands(t, known, reply) then {t.name} else {}
  {
    var r := reply(t.name);
    if !r.connects || t.name !in known {
      return false, [], {};
    }
    sent := [Reset(t.name, enrolled)];
    landed := if r.accepted || r.lands then {t.name} else {};
    ok := r.accepted;
    if r.accepted && !noWait && !r.finishes {
      ok := false;
    }
    if !r.closes {
      ok := false;
    }
  }

  ghost function Requested(
      targets: seq<Entry>, known: set<string>, enrolled: bool, reply: string -> ResetReply): seq<Event>
  {
    if targets == [] then []
    else
      var t := targets[|targets| - 1];
      Requested(targets[..|targets| - 1], known, enrolled, reply)
      + (if reply(t.name).connects && t.name in known then [Reset(t.name, enrolled)] else [])
  }

  lemma RequestedStep(targets: seq<Entry>, i: nat, known: set<string>, enrolled: bool, reply: string -> ResetReply)
    requires i < |targets|
    ensures Requested(targets[..i + 1], known, enrolled, reply) == Requested(targets[..i], known, enrolled, reply)
      + (if reply(targets[i].name).connects && targets[i].name in known then [Reset(targets[i].name, enrolled)] else [])
  {
    assert targets[..i + 1][..i] == targets[..i];
  }

  // ---------------------------------------------------------------------------------------
  // Leaving the cluster

  /** The etcd membership a removal leaves. */
  function AfterRemoval(ms: seq<Member>, id: string, r: Reply): seq<Member> {
    if r == Succeeds || r == Fails(true) then Without(ms, id) else ms
  }

  function AfterDelete(objects: set<string>, node: string, r: Reply): set<string> {
    if r == Succeeds || r == Fails(true) then objects - {node} else objects
  }

  predicate Removes(plan: Option<Plan>) {
    plan.Some? && plan.value.decision.Remove?
  }

  /** The planned member is removed and the Node object deleted. */
  ghost predicate Leaves(plan: Option<Plan>, env: Env) {
    env.delete == Succeeds && (Removes(plan) ==> env.removal == Succeeds)
  }

  /** The requests before the reset, up to the first that fails. */
  ghost function LeaveRequests(target: Entry, plan: Option<Plan>, env: Env): seq<Event> {
    [Cordon(target.name), Drain(target.name)]
    + (if Removes(plan) && env.removal != NotSent then [RemoveMember(plan.value.decision.member.id)] else [])
    + (if Removes(plan) && env.removal != Succeeds then [] else [DeleteNode(target.name)])
  }

  /** Cordon and drain are best effort; the etcd removal and the Node deletion must succeed. */
  method Leave(w: World, target: Entry, plan: Option<Plan>, env: Env) returns (after: World, ok: bool, sent: seq<Event>)
    ensures sent < Script(target, true, plan)
    ensures ok ==> sent + [Reset(target.name, true)] == Script(target, true, plan) && target.name !in after.objects
    ensures after.wiped == w.wiped && w.objects - {target.name} <= after.objects <= w.objects
    ensures !Removes(plan) ==> after.members == w.members
    ensures Removes(plan) ==>
      var gone := Without(w.members, plan.value.decision.member.id);
      (after.members == w.members || after.members == gone) && (ok ==> after.members == gone)
    ensures ok <==> Leaves(plan, env)
    ensures Removes(plan) ==> after.members == AfterRemoval(w.members, plan.value.decision.member.id, env.removal)
    ensures after.objects ==
      if Removes(plan) && env.removal != Succeeds then w.objects else AfterDelete(w.objects, target.name, env.delete)
    ensures sent == LeaveRequests(target, plan, env)
    ensures env.removal in {NotSent, Fails(false)} ==> after.members == w.members
    ensures env.delete in {NotSent, Fails(false)} ==> after.objects == w.objects
    ensures Removes(plan) && env.removal == Fails(true) ==>
      after.members == Without(w.members, plan.value.decision.member.id)
  {
    after := w;
    sent := [Cordon(target.name), Drain(target.name)];
    if Removes(plan) {
      var id := plan.value.decision.member.id;
      if env.removal != NotSent {
        sent := sent + [RemoveMember(id)];
      }
      after := after.(members := AfterRemoval(after.members, id, env.removal));
      if env.removal != Succeeds {
        return after, false, sent;
      }
    }
    sent := sent + [DeleteNode(target.name)];
    after := after.(objects := AfterDelete(after.objects, target.name, env.delete));
    ok := env.delete == Succeeds;
  }

  // ---------------------------------------------------------------------------------------
  // One run

  /** Nothing stops this run: the plan is accepted and every step it needs succeeds. */
  ghost predicate Unhindered(nodes: seq<Entry>, target: Entry, opts: Options, env: Env) {
    && env.preflight && !opts.planOnly && ResetWorks(env.reset(target.name), true, opts.noWait)
    && (Enrolled(env) ==> Trim(opts.kubeconfig) != "" && env.delete == Succeeds)
    && (NeedsEtcd(target, env) ==> env.inventoryReads && PlanAllows(nodes, target, env) && RemovalWorks(target, env))
  }

  ghost predicate RemovalWorks(target: Entry, env: Env) {
    env.removal == Succeeds || forall plan | Justified(target, plan, env) :: plan.decision.AlreadyGone?
  }

  ghost predicate PlanAllows(nodes: seq<Entry>, target: Entry, env: Env) {
    exists c :: Chosen(nodes, "", target.name, Ok(c)) && env.statusFrom(c).Some?
      && Decides(env.statusFrom(c).value, WipeRequest(target, env))
  }

  function WipeRequest(target: Entry, env: Env): Request {
    Request(target.name, env.peerUrl(target.address), "", true)
  }

  /** The plan was made for this target on a report that justifies it. */
  ghost predicate Justified(target: Entry, plan: Plan, env: Env) {
    && env.statusFrom(plan.coordinator) == Some(plan.status) && plan.target == target
    && plan.coordinator.name != target.name
    && (match plan.decision
        case Remove(m) => Accepts(plan.status, WipeRequest(target, env), m)
        case AlreadyGone => Gone(plan.status, WipeRequest(target, env)))
  }

  /** Any etcd plan the wipe needs can be made. */
  ghost predicate PlanReady(nodes: seq<Entry>, target: Entry, env: Env) {
    NeedsEtcd(target, env) ==> env.inventoryReads && PlanAllows(nodes, target, env)
  }

  method PlanCleanup(nodes: seq<Entry>, target: Entry, env: Env) returns (plan: Option<Plan>, ok: bool)
    requires Usable(nodes) && target in nodes && Trim(target.name) == target.name
    ensures plan.Some? ==> NeedsEtcd(target, env) && Justified(target, plan.value, env)
    ensures ok && NeedsEtcd(target, env) ==> plan.Some?
    ensures ok <==> PlanReady(nodes, target, env)
    ensures !NeedsEtcd(target, env) || !ok ==> plan.None?
  {
    plan, ok := None, true;
    if target.role == CONTROL_PLANE && Enrolled(env) {
      if !env.inventoryReads {
        return None, false;
      }
      var r := PlanEtcdRemoval(nodes, target.name, "", "", true, env.statusFrom, env.peerUrl);
      OneTarget(nodes, target);
      if r.Err? {
        return None, false;
      }
      plan := Some(r.value);
    }
  }

  /** How a run ends, given the plan it made. */
  ghost function Ending(nodes: seq<Entry>, target: Entry, opts: Options, env: Env, plan: Option<Plan>): Outcome {
    if !env.preflight || !PlanReady(nodes, target, env) then Outcome.Refused
    else if opts.planOnly then Planned
    else if Enrolled(env) && Trim(opts.kubeconfig) == "" then Outcome.Refused
    else if Enrolled(env) && !Leaves(plan, env) then CleanupFailed
    else if !ResetWorks(env.reset(target.name), true, opts.noWait) then ResetFailed
    else Done
  }

  /** What a run that ends so has sent. */
  ghost function Sent(target: Entry, opts: Options, env: Env, plan: Option<Plan>, outcome: Outcome): seq<Event> {
    if outcome in {Outcome.Refused, Planned} then []
    else
      (if Enrolled(env) then LeaveRequests(target, plan, env) else [])
      + (if outcome != CleanupFailed && env.reset(target.name).connects
         then [Reset(target.name, Enrolled(env))] else [])
  }

  /** The world after it: every request sent may take effect though its reply is lost. */
  ghost function Effect(w: World, target: Entry, env: Env, plan: Option<Plan>, outcome: Outcome): World {
    var leaving := outcome !in {Outcome.Refused, Planned} && Enrolled(env);
    World(
      if leaving && Removes(plan)
        then AfterRemoval(w.members, plan.value.decision.member.id, env.removal) else w.members,
      if leaving && (Removes(plan) ==> env.removal == Succeeds)
        then AfterDelete(w.objects, target.name, env.delete) else w.objects,
      w.wiped + if outcome in {ResetFailed, Done} && ResetLands(target, {target.name}, env.reset)
        then {target.name} else {})
  }

  method WipeNode(w: World, nodes: seq<Entry>, target: Entry, opts: Options, env: Env)
    returns (after: World, outcome: Outcome, trace: seq<Event>, plan: Option<Plan>)
    requires Usable(nodes) && target in nodes && Trim(target.name) == target.name
    ensures trace <= Script(target, Enrolled(env), plan)
    ensures opts.planOnly || (Enrolled(env) && Trim(opts.kubeconfig) == "") ==> trace == [] && after == w
    ensures NeedsEtcd(target, env) && trace != [] ==> plan.Some?
    ensures plan.Some? ==> NeedsEtcd(target, env) && Justified(target, plan.value, env)
    ensures Kept(w, after, target, plan)
    ensures trace == Script(target, Enrolled(env), plan) && Enrolled(env) ==> Left(w, after, target, plan)
    ensures outcome == Done ==> trace == Script(target, Enrolled(env), plan) && target.name in after.wiped
    ensures Unhindered(nodes, target, opts, env) ==> outcome == Done
    ensures outcome == Ending(nodes, target, opts, env, plan) && trace == Sent(target, opts, env, plan, outcome)
    ensures after == Effect(w, target, env, plan, outcome)
    ensures env.preflight && PlanReady(nodes, target, env) && NeedsEtcd(target, env) ==> plan.Some?
    ensures outcome == Done <==>
      var reset := env.reset(target.name);
      && env.preflight && PlanReady(nodes, target, env) && !opts.planOnly
      && (Enrolled(env) ==> Trim(opts.kubeconfig) != "" && Leaves(plan, env))
      && reset.connects && reset.accepted && (opts.noWait || reset.finishes) && reset.closes
  {
    after, trace, plan := w, [], None;
    if !env.preflight {
      return after, Outcome.Refused, trace, plan;
    }
    var ok: bool;
    plan, ok := PlanCleanup(nodes, target, env);
    if !ok {
      return after, Outcome.Refused, trace, plan;
    }
    if opts.planOnly {
      return after, Planned, trace, plan;
    }
    if Enrolled(env) {
      if Trim(opts.kubeconfig) == "" {
        return after, Outcome.Refused, trace, plan;
      }
      after, ok, trace := Leave(w, target, plan, env);
      if !ok {
        return after, CleanupFailed, trace, plan;
      }
    }
    var sent, landed;
    ok, sent, landed := SubmitReset(target, {target.name}, opts.noWait, Enrolled(env), env.reset);
    trace := trace + sent;
    after := after.(wiped := after.wiped + landed);
    outcome := if ok then Done else ResetFailed;
  }

  /** Only the target is affected: its member, its Node object, its reset. */
  ghost predicate Kept(w: World, after: World, target: Entry, plan: Option<Plan>) {
    && w.objects - {target.name} <= after.objects <= w.objects
    && w.wiped <= after.wiped <= w.wiped + {target.name}
    && (after.members == w.members
        || (plan.Some? && after.members == Survivors(w.members, plan.value.decision)))
  }

  ghost function Survivors(ms: seq<Member>, d: Decision): seq<Member> {
    if d.Remove? then Without(ms, d.member.id) else ms
  }

  /** The target has left: no Node object, and the member the plan named is removed. */
  ghost predicate Left(w: World, after: World, target: Entry, plan: Option<Plan>) {
    && target.name !in after.objects
    && (plan.Some? ==> after.members == Survivors(w.members, plan.value.decision))
  }

  // ---------------------------------------------------------------------------------------
  // Over runs

  ghost predicate Sound(ms: seq<Member>) {
    ms != [] && DistinctIds(ms)
  }

  /** After the removal of a justified plan the target's name and peer URL are gone from etcd. */
  lemma RemovedMeansAbsent(ms: seq<Member>, target: Entry, plan: Plan, env: Env, w: World)
    requires Sound(w.members) && Truthful(w, env) && Justified(target, plan, env)
    requires Unambiguous(w.members, target.name, env.peerUrl(target.address))
    requires ms == Survivors(w.members, plan.decision)
    ensures Absent(ms, target.name, env.peerUrl(target.address))
    ensures Sound(ms) && Ids(ms) <= Ids(w.members)
  {
    var peer := env.peerUrl(target.address);
    SameTouches(w.members, plan.status.members, target.name, peer);
    if plan.decision.Remove? {
      var m := plan.decision.member;
      var i :| 0 <= i < |w.members| && plan.status.members[i] == m && Is(m, target.name, peer);
      assert w.members[i].id == m.id && Touches(w.members[i], target.name, peer);
      forall k | 0 <= k < |w.members| && w.members[k].id != m.id ensures !Touches(w.members[k], target.name, peer) {
      }
      WithoutMembers(w.members, m.id);
      WithoutOne(w.members, w.members[i]);
      RemovalKeepsQuorum(plan.status, WipeRequest(target, env), m);
      WithoutOne(plan.status.members, m);
    }
  }

  lemma SameTouches(ms: seq<Member>, other: seq<Member>, name: string, peer: string)
    requires SameButHealth(ms, other)
    ensures forall i | 0 <= i < |ms| :: Touches(ms[i], name, peer) == Touches(other[i], name, peer)
    ensures Absent(ms, name, peer) <==> Absent(other, name, peer)
  {
    assert forall i | 0 <= i < |ms| :: ms[i] in ms && other[i] in other;
    assert forall i | 0 <= i < |ms| :: Touches(ms[i], name, peer) == Touches(other[i], name, peer);
  }

  /** Once the target is absent a repeated run needs no removal: a healthy quorum is enough. */
  lemma AbsentAllows(w: World, nodes: seq<Entry>, target: Entry, env: Env, c: Entry)
    requires Truthful(w, env) && Absent(w.members, target.name, env.peerUrl(target.address))
    requires Chosen(nodes, "", target.name, Ok(c)) && HealthyReport(env.statusFrom(c))
    ensures PlanAllows(nodes, target, env)
    ensures forall plan | Justified(target, plan, env) :: plan.decision == AlreadyGone
  {
    SameTouches(w.members, env.statusFrom(c).value.members, target.name, env.peerUrl(target.address));
    forall plan | Justified(target, plan, env) ensures plan.decision == AlreadyGone {
      SameTouches(w.members, plan.status.members, target.name, env.peerUrl(target.address));
    }
  }

  /** The repeated run reaches its agents and a coordinator that reports a healthy quorum. */
  ghost predicate Prepared(nodes: seq<Entry>, target: Entry, opts: Options, env: Env) {
    && env.preflight && env.inventoryReads && !opts.planOnly && Trim(opts.kubeconfig) != ""
    && env.delete == Succeeds && ResetWorks(env.reset(target.name), true, opts.noWait)
    && exists c :: Chosen(nodes, "", target.name, Ok(c)) && HealthyReport(env.statusFrom(c))
  }

  ghost predicate HealthyReport(s: Option<Status>) {
    s.Some? && s.value.healthyMembers >= s.value.quorum
  }

  /** Whatever a membership that fits a report looks like, the repeated run is prepared for it. */
  ghost predicate Answers(
      nodes: seq<Entry>, target: Entry, opts: Options, peerUrl: string -> string, next: World -> Env)
  {
    forall w: World | Sound(w.members) && |w.members| < WORD ::
      && Truthful(w, next(w)) && next(w).peerUrl == peerUrl
      && NeedsEtcd(target, next(w)) && Prepared(nodes, target, opts, next(w))
  }

  lemma NoMoreMembers(ms: seq<Member>, after: seq<Member>)
    requires DistinctIds(ms) && DistinctIds(after) && Ids(after) <= Ids(ms)
    ensures |after| <= |ms|
  {
    IdCount(ms);
    IdCount(after);
    NoLarger(Ids(after), Ids(ms));
  }

  function AllHealthy(ms: seq<Member>): (r: seq<Member>)
    ensures SameButHealth(ms, r) && forall m | m in r :: m.healthy
  {
    seq(|ms|, i requires 0 <= i < |ms| => ms[i].(healthy := true))
  }

  lemma {:induction false} CountHealthy(ms: seq<Member>)
    requires forall m | m in ms :: m.healthy
    ensures HealthyCount(ms) == |ms|
  {
    if ms != [] {
      assert ms[0] in ms;
      CountHealthy(ms[1..]);
    }
  }

  /** Agents that all work and report every member healthy. */
  function Cooperative(peerUrl: string -> string): World -> Env {
    (w: World) => Env(true, "ready", true,
      (e: Entry) => if w.members != [] && |w.members| < WORD
        then Some(Status(AllHealthy(w.members), |w.members|, QuorumOf(|w.members|), w.members[0].id)) else None,
      peerUrl, NotSent, Succeeds, (n: string) => ResetReply(true, true, true, true, true))
  }

  /** Such agents exist wherever another control plane can coordinate. */
  lemma CooperativeAnswers(nodes: seq<Entry>, target: Entry, c: Entry, opts: Options, peerUrl: string -> string)
    requires target.role == CONTROL_PLANE && Chosen(nodes, "", target.name, Ok(c))
    requires !opts.planOnly && Trim(opts.kubeconfig) != ""
    ensures Answers(nodes, target, opts, peerUrl, Cooperative(peerUrl))
  {
    assert Trim("ready") == "ready" by {
      Trimmed("ready", IsSpace);
    }
    forall w: World | Sound(w.members) && |w.members| < WORD
      ensures var env := Cooperative(peerUrl)(w);
        Truthful(w, env) && env.peerUrl == peerUrl && NeedsEtcd(target, env) && Prepared(nodes, target, opts, env)
    {
      CountHealthy(AllHealthy(w.members));
      var env := Cooperative(peerUrl)(w);
      assert HealthyReport(env.statusFrom(c));
    }
  }

  /** A run cut short anywhere after the member's removal took effect is completed by a run that
      meets no obstacle, and that run does not ask etcd for anything. */
  method WipeAgain(
      w: World, nodes: seq<Entry>, target: Entry, opts: Options, env: Env, again: Options, next: World -> Env)
    returns (middle: World, after: World, outcome: Outcome, trace: seq<Event>)
    requires Usable(nodes) && target in nodes && Trim(target.name) == target.name && NeedsEtcd(target, env)
    requires Sound(w.members) && Truthful(w, env) && Unambiguous(w.members, target.name, env.peerUrl(target.address))
    requires Answers(nodes, target, again, env.peerUrl, next)
    ensures Unhindered(nodes, target, opts, env) ==>
      target.name in middle.wiped && Absent(middle.members, target.name, env.peerUrl(target.address))
    ensures middle.members != w.members ==>
      && outcome == Done && target.name in after.wiped
      && Absent(after.members, target.name, env.peerUrl(target.address))
      && trace == [Cordon(target.name), Drain(target.name), DeleteNode(target.name), Reset(target.name, true)]
  {
    var o, sent, plan;
    middle, o, sent, plan := WipeNode(w, nodes, target, opts, env);
    if o == Done {
      RemovedMeansAbsent(middle.members, target, plan.value, env, w);
    }
    if middle.members == w.members {
      return middle, middle, o, sent;
    }
    RemovedMeansAbsent(middle.members, target, plan.value, env, w);
    NoMoreMembers(w.members, middle.members);
    after, outcome, trace := FinishWipe(middle, nodes, target, again, next(middle));
  }

  /** With the member already out of etcd, a prepared run finishes without asking etcd for anything. */
  method FinishWipe(w: World, nodes: seq<Entry>, target: Entry, opts: Options, env: Env)
    returns (after: World, outcome: Outcome, trace: seq<Event>)
    requires Usable(nodes) && target in nodes && Trim(target.name) == target.name && NeedsEtcd(target, env)
    requires Truthful(w, env) && Absent(w.members, target.name, env.peerUrl(target.address))
    requires Prepared(nodes, target, opts, env)
    ensures outcome == Done && target.name in after.wiped && after.members == w.members
    ensures trace == [Cordon(target.name), Drain(target.name), DeleteNode(target.name), Reset(target.name, true)]
  {
    ghost var c :| Chosen(nodes, "", target.name, Ok(c)) && HealthyReport(env.statusFrom(c));
    AbsentAllows(w, nodes, target, env, c);
    var plan;
    after, outcome, trace, plan := WipeNode(w, nodes, target, opts, env);
  }

  /** One wipe among many; what its agents answer depends on the state it meets. */
  datatype Attempt = Attempt(target: Entry, opts: Options, env: World -> Env)

  ghost predicate Fair(a: Attempt, nodes: seq<Entry>, peerUrl: string -> string) {
    && a.target in nodes && Trim(a.target.name) == a.target.name
    && forall w :: a.env(w).peerUrl == peerUrl && (Sound(w.members) ==> Truthful(w, a.env(w)))
  }

  ghost predicate Cleared(ms: seq<Member>, nodes: seq<Entry>, peerUrl: string -> string, trace: seq<Event>) {
    forall t | t in nodes && t.role == CONTROL_PLANE && Reset(t.name, true) in trace ::
      Absent(ms, t.name, peerUrl(t.address))
  }

  ghost predicate DeletedFirst(trace: seq<Event>) {
    forall i | 0 <= i < |trace| && trace[i].Reset? && trace[i].enrolled ::
      i > 0 && trace[i - 1] == DeleteNode(trace[i].node)
  }

  ghost predicate AllUnambiguous(ms: seq<Member>, nodes: seq<Entry>, peerUrl: string -> string) {
    forall t | t in nodes :: Unambiguous(ms, t.name, peerUrl(t.address))
  }

  lemma CooperativeFair(target: Entry, nodes: seq<Entry>, opts: Options, peerUrl: string -> string)
    requires target in nodes && Trim(target.name) == target.name
    ensures Fair(Attempt(target, opts, Cooperative(peerUrl)), nodes, peerUrl)
  {
    forall w: World | Sound(w.members) ensures Truthful(w, Cooperative(peerUrl)(w)) {
      CountHealthy(AllHealthy(w.members));
    }
  }

  /** One wipe in the state it meets: unhindered it is done, and done means told to reset and wiped. */
  ghost predicate Attempted(
      nodes: seq<Entry>, a: Attempt, w: World, after: World, outcome: Outcome, trace: seq<Event>)
  {
    && (Unhindered(nodes, a.target, a.opts, a.env(w)) ==> outcome == Done)
    && (outcome == Done ==>
          && a.target.name in after.wiped && Reset(a.target.name, Enrolled(a.env(w))) in trace
          && ResetWorks(a.env(w).reset(a.target.name), true, a.opts.noWait))
    && (exists plan ::
          && outcome == Ending(nodes, a.target, a.opts, a.env(w), plan)
          && after == Effect(w, a.target, a.env(w), plan, outcome)
          && (plan.Some? ==> Justified(a.target, plan.value, a.env(w)))
          && (outcome !in {Outcome.Refused, Planned} && NeedsEtcd(a.target, a.env(w)) ==> plan.Some?))
    && Sound(after.members) && Ids(after.members) <= Ids(w.members)
    && after.objects <= w.objects && w.wiped <= after.wiped
  }

  /** Over any number of wipes, each stopped anywhere: every enrolled node that was told to reset had
      its Node object deleted just before, every such control plane is out of etcd, and etcd
      still has members. */
  method AnyWipes(w: World, nodes: seq<Entry>, peerUrl: string -> string, attempts: seq<Attempt>)
    returns (worlds: seq<World>, outcomes: seq<Outcome>, trace: seq<Event>)
    requires Usable(nodes) && Sound(w.members) && AllUnambiguous(w.members, nodes, peerUrl)
    requires forall a | a in attempts :: Fair(a, nodes, peerUrl)
    ensures |outcomes| == |attempts| && |worlds| == |attempts| + 1 && worlds[0] == w
    ensures forall i | 0 <= i < |attempts| ::
      Attempted(nodes, attempts[i], worlds[i], worlds[i + 1], outcomes[i], trace)
    ensures DeletedFirst(trace) && Cleared(worlds[|attempts|].members, nodes, peerUrl, trace)
  {
    worlds, outcomes, trace := [w], [], [];
    for i := 0 to |attempts|
      invariant |outcomes| == i && |worlds| == i + 1 && worlds[0] == w
      invariant Sound(worlds[i].members) && AllUnambiguous(worlds[i].members, nodes, peerUrl)
      invariant forall k | 0 <= k < i ::
        Attempted(nodes, attempts[k], worlds[k], worlds[k + 1], outcomes[k], trace)
      invariant DeletedFirst(trace) && Cleared(worlds[i].members, nodes, peerUrl, trace)
    {
      assert attempts[i] in attempts;
      var after, outcome, sent := OneOfMany(worlds[i], nodes, peerUrl, attempts[i], trace);
      worlds, outcomes, trace := worlds + [after], outcomes + [outcome], trace + sent;
    }
  }

  method OneOfMany(w: World, nodes: seq<Entry>, peerUrl: string -> string, a: Attempt, ghost past: seq<Event>)
    returns (after: World, outcome: Outcome, sent: seq<Event>)
    requires Usable(nodes) && Sound(w.members) && AllUnambiguous(w.members, nodes, peerUrl) && Fair(a, nodes, peerUrl)
    requires DeletedFirst(past) && Cleared(w.members, nodes, peerUrl, past)
    ensures Attempted(nodes, a, w, after, outcome, past + sent)
    ensures AllUnambiguous(after.members, nodes, peerUrl)
    ensures DeletedFirst(past + sent) && Cleared(after.members, nodes, peerUrl, past + sent)
  {
    var env := a.env(w);
    var plan;
    after, outcome, sent, plan := WipeNode(w, nodes, a.target, a.opts, env);
    ScriptDeletesFirst(a.target, Enrolled(env), plan, sent, past);
    Shrinks(w, after, a.target, plan);
    forall t | t in nodes && t.role == CONTROL_PLANE && Reset(t.name, true) in past + sent
      ensures Absent(after.members, t.name, peerUrl(t.address))
    {
      if Reset(t.name, true) in sent {
        OneTarget(nodes, a.target);
        RemovedMeansAbsent(after.members, a.target, plan.value, env, w);
      }
    }
    if after.members != w.members {
      RemovedMeansAbsent(after.members, a.target, plan.value, env, w);
    }
  }

  lemma Shrinks(w: World, after: World, target: Entry, plan: Option<Plan>)
    requires Kept(w, after, target, plan)
    ensures forall m | m in after.members :: m in w.members
  {
    if after.members != w.members {
      WithoutMembers(w.members, plan.value.decision.member.id);
    }
  }

  lemma ScriptDeletesFirst(target: Entry, enrolled: bool, plan: Option<Plan>, sent: seq<Event>, past: seq<Event>)
    requires sent <= Script(target, enrolled, plan) && DeletedFirst(past)
    ensures DeletedFirst(past + sent)
    ensures forall n | Reset(n, true) in sent :: n == target.name && enrolled && sent == Script(target, enrolled, plan)
  {
    var whole := Script(target, enrolled, plan);
    assert forall i | 0 <= i < |sent| :: sent[i] == whole[i];
  }
}
