/** What holds over any number of interrupted rollout runs toward one target. */
module RolloutHistory {
  import opened Results
  import opened Order
  import opened Rollout

  ghost predicate Fleet(order: seq<Node>) {
    ControlPlanesFirst(order) && DistinctNames(order)
  }

  /** Any number of runs, each stopped anywhere, the failing node left on either version. */
  ghost predicate History(order: seq<Node>, h: seq<Cluster>, target: string) {
    && h != []
    && (forall i | 0 <= i < |h| :: Covers(h[i], order))
    && (forall i | 0 <= i < |h| - 1 :: Run(order, h[i], h[i + 1], target))
  }

  /** Exactly the first `k` nodes of the order run the target; the rest still run `base`. */
  ghost predicate AtPrefix(order: seq<Node>, cluster: Cluster, base: string, target: string, k: nat) {
    && Covers(cluster, order) && k <= |order|
    && forall i | 0 <= i < |order| :: cluster[order[i].name] == if i < k then target else base
  }

  /** How many leading nodes of the order run the target. */
  ghost function Reached(order: seq<Node>, cluster: Cluster, target: string, i: nat := 0): nat
    requires Covers(cluster, order)
    decreases |order| - i
  {
    if i < |order| && cluster[order[i].name] == target then Reached(order, cluster, target, i + 1) else i
  }

  /** The plan of the very first run, given position by position. */
  ghost function FirstPlan(order: seq<Node>, base: string): (ts: seq<Target>)
    ensures |ts| == |order|
  {
    seq(|order|, i requires 0 <= i < |order| =>
      Target(order[i], base,
        if order[i].role == Worker then WorkerRole else if i == 0 then ApplyRole else ControlPlaneRole))
  }

  /** After any history from a uniform fleet the nodes on the target are a prefix of the order,
      no run is refused for mixed versions or a worker ahead, each run plans exactly what the
      first plan still has to do with the same roles, and no run loses ground. */
  lemma {:induction false} ResumeIsContinuation(order: seq<Node>, h: seq<Cluster>, base: string, target: string, i: nat)
    requires Fleet(order) && History(order, h, target) && i < |h|
    requires AtPrefix(order, h[0], base, target, 0)
    ensures AtPrefix(order, h[i], base, target, Reached(order, h[i], target))
    ensures Plan(order, h[i], target) == Ok(FirstPlan(order, base)[Reached(order, h[i], target)..])
    ensures i > 0 ==> Reached(order, h[i - 1], target) <= Reached(order, h[i], target)
  {
    if i == 0 {
      PrefixFacts(order, h[0], base, target, 0);
    } else {
      ResumeIsContinuation(order, h, base, target, i - 1);
      var was := Reached(order, h[i - 1], target);
      assert Run(order, h[i - 1], h[i], target);
      var k := RunFromPrefix(order, h[i - 1], h[i], base, target, was);
      PrefixFacts(order, h[i], base, target, k);
    }
  }

  /** One run from a prefix state ends in a prefix state at least as far. */
  lemma RunFromPrefix(order: seq<Node>, before: Cluster, after: Cluster, base: string, target: string, was: nat)
    returns (k: nat)
    requires Fleet(order) && AtPrefix(order, before, base, target, was)
    requires Plan(order, before, target) == Ok(FirstPlan(order, base)[was..])
    requires Run(order, before, after, target)
    ensures was <= k && AtPrefix(order, after, base, target, k)
  {
    k := was;
    if after != before {
      var plan := FirstPlan(order, base)[was..];
      var m :| 0 <= m <= |plan| && after == Moved(before, plan[..m], target);
      MovedAlongOrder(order, before, base, target, was, m);
      k := was + m;
    }
  }

  /** In a prefix state the plan is the rest of the first plan. */
  lemma PrefixFacts(order: seq<Node>, cluster: Cluster, base: string, target: string, k: nat)
    requires Fleet(order) && AtPrefix(order, cluster, base, target, k)
    ensures k <= Reached(order, cluster, target)
    ensures AtPrefix(order, cluster, base, target, Reached(order, cluster, target))
    ensures Plan(order, cluster, target) == Ok(FirstPlan(order, base)[Reached(order, cluster, target)..])
  {
    if base == target {
      ReachedIs(order, cluster, base, target, |order|, 0);
      PlanWhenDone(order, cluster, target);
      assert FirstPlan(order, base)[|order|..] == [];
    } else {
      ReachedIs(order, cluster, base, target, k, 0);
      PlanFromPrefix(order, cluster, base, target, k);
    }
  }

  /** A worker on the target means every control plane is on the target. */
  lemma WorkersNeverAhead(order: seq<Node>, h: seq<Cluster>, base: string, target: string, i: nat, w: Node, c: Node)
    requires Fleet(order) && History(order, h, target) && i < |h|
    requires AtPrefix(order, h[0], base, target, 0)
    requires w in order && w.role == Worker && c in order && c.role == ControlPlane
    ensures h[i][w.name] == target ==> h[i][c.name] == target
  {
    ResumeIsContinuation(order, h, base, target, i);
    var a :| 0 <= a < |order| && order[a] == w;
    var b :| 0 <= b < |order| && order[b] == c;
    assert b < a;
  }

  lemma {:induction false} ReachedIs(order: seq<Node>, cluster: Cluster, base: string, target: string, k: nat, i: nat)
    requires AtPrefix(order, cluster, base, target, k) && i <= k
    requires base == target ==> k == |order|
    ensures Reached(order, cluster, target, i) == k
    decreases k - i
  {
    if i < k {
      ReachedIs(order, cluster, base, target, k, i + 1);
    }
  }

  lemma AtPrefixTail(order: seq<Node>, cluster: Cluster, base: string, target: string, k: nat)
    requires AtPrefix(order, cluster, base, target, k) && order != []
    ensures AtPrefix(order[1..], cluster, base, target, if k == 0 then 0 else k - 1)
  {
    var rest := order[1..];
    forall i | 0 <= i < |rest|
      ensures cluster[rest[i].name] == if i < (if k == 0 then 0 else k - 1) then target else base
    {
      assert rest[i] == order[i + 1];
    }
  }

  lemma {:induction false} PendingSuffix(order: seq<Node>, cluster: Cluster, base: string, target: string, k: nat)
    requires AtPrefix(order, cluster, base, target, k) && base != target
    ensures Pending(order, cluster, target) == order[k..]
  {
    if order != [] {
      AtPrefixTail(order, cluster, base, target, k);
      if k == 0 {
        PendingSuffix(order[1..], cluster, base, target, 0);
        assert order[0..] == [order[0]] + order[1..][0..];
      } else {
        PendingSuffix(order[1..], cluster, base, target, k - 1);
        assert order[k..] == order[1..][k - 1..];
      }
    }
  }

  lemma {:induction false} AssignAt(pending: seq<Node>, cluster: Cluster, applied: bool, i: nat)
    requires Covers(cluster, pending) && ControlPlanesFirst(pending) && i < |pending|
    ensures Assign(pending, cluster, applied)[i] ==
      Target(pending[i], cluster[pending[i].name],
        if pending[i].role == Worker then WorkerRole else if applied || i > 0 then ControlPlaneRole else ApplyRole)
  {
    if i > 0 {
      var rest := pending[1..];
      assert forall j | 0 <= j < |rest| :: rest[j] == pending[j + 1];
      AssignAt(rest, cluster, applied || pending[0].role == ControlPlane, i - 1);
    }
  }

  lemma PlanFromPrefix(order: seq<Node>, cluster: Cluster, base: string, target: string, k: nat)
    requires Fleet(order) && AtPrefix(order, cluster, base, target, k) && base != target
    ensures Plan(order, cluster, target) == Ok(FirstPlan(order, base)[k..])
  {
    PendingSuffix(order, cluster, base, target, k);
    PendingFrom(order, cluster, target);
    var pending := order[k..];
    assert OneSource(pending, cluster);
    AppliedBefore(order, cluster, base, target, k);
    NoControlPlaneBehindWorker(order, cluster, base, target, k);
    AssignIsSuffix(order, cluster, base, target, k);
  }

  lemma AppliedBefore(order: seq<Node>, cluster: Cluster, base: string, target: string, k: nat)
    requires Fleet(order) && AtPrefix(order, cluster, base, target, k) && base != target
    ensures AnyAt(order, cluster, target, ControlPlane) <==> k > 0 && order[0].role == ControlPlane
  {
    if k > 0 && order[0].role == ControlPlane {
      assert order[0] in order && cluster[order[0].name] == target;
    }
  }

  lemma NoControlPlaneBehindWorker(order: seq<Node>, cluster: Cluster, base: string, target: string, k: nat)
    requires Fleet(order) && AtPrefix(order, cluster, base, target, k) && base != target
    ensures AnyAt(order, cluster, target, Worker) ==> forall n | n in order[k..] :: n.role == Worker
  {
    if AnyAt(order, cluster, target, Worker) {
      var w :| w in order && w.role == Worker && cluster[w.name] == target;
      var a :| 0 <= a < |order| && order[a] == w;
      forall n | n in order[k..] ensures n.role == Worker {
        var b :| k <= b < |order| && order[b] == n;
        assert a < b;
      }
    }
  }

  lemma AssignIsSuffix(order: seq<Node>, cluster: Cluster, base: string, target: string, k: nat)
    requires Fleet(order) && AtPrefix(order, cluster, base, target, k) && base != target
    ensures Assign(order[k..], cluster, k > 0 && order[0].role == ControlPlane) == FirstPlan(order, base)[k..]
  {
    var pending, applied := order[k..], k > 0 && order[0].role == ControlPlane;
    assert forall j | 0 <= j < |pending| :: pending[j] == order[k + j];
    forall j | 0 <= j < |pending| ensures Assign(pending, cluster, applied)[j] == FirstPlan(order, base)[k..][j] {
      AssignAt(pending, cluster, applied, j);
    }
  }

  lemma PlanWhenDone(order: seq<Node>, cluster: Cluster, target: string)
    requires Covers(cluster, order) && forall n | n in order :: cluster[n.name] == target
    ensures Plan(order, cluster, target) == Ok([])
  {
    NothingPending(order, cluster, target);
  }

  lemma {:induction false} NothingPending(order: seq<Node>, cluster: Cluster, target: string)
    requires Covers(cluster, order) && forall n | n in order :: cluster[n.name] == target
    ensures Pending(order, cluster, target) == []
  {
    if order != [] {
      NothingPending(order[1..], cluster, target);
    }
  }

  lemma {:induction false} MovedAlongOrder(
      order: seq<Node>, cluster: Cluster, base: string, target: string, k: nat, m: nat)
    requires DistinctNames(order) && AtPrefix(order, cluster, base, target, k) && k + m <= |order|
    ensures AtPrefix(order, Moved(cluster, FirstPlan(order, base)[k..][..m], target), base, target, k + m)
  {
    if m > 0 {
      var rest := FirstPlan(order, base)[k..];
      MovedAlongOrder(order, cluster, base, target, k, m - 1);
      MovedStep(cluster, rest, m - 1, target);
      assert rest[m - 1].node == order[k + m - 1];
    }
  }

  /** Whatever state a fleet is in, a plan holds at most one `apply`, on the first control plane of
      the order, exactly when no control plane runs the target yet. */
  lemma ApplyIsTheFirstControlPlane(order: seq<Node>, cluster: Cluster, target: string, i: nat)
    requires Fleet(order) && Covers(cluster, order) && Plan(order, cluster, target).Ok?
    requires i < |Plan(order, cluster, target).value|
    ensures Plan(order, cluster, target).value[i].upgradeRole == ApplyRole <==>
      && order[0].role == ControlPlane
      && Plan(order, cluster, target).value[i].node == order[0]
      && !AnyAt(order, cluster, target, ControlPlane)
    ensures Plan(order, cluster, target).value[i].upgradeRole == ApplyRole ==> i == 0
  {
    PendingFrom(order, cluster, target);
    var pending := Pending(order, cluster, target);
    PendingKeepsOrder(order, cluster, target);
    var applied := AnyAt(order, cluster, target, ControlPlane);
    AssignAt(pending, cluster, applied, i);
    assert pending[i] in pending && pending[0] in pending;
    if order[0].role == ControlPlane && !applied {
      assert order[0] in order;
    }
  }

  /** `apply` is asked of at most one node, the first control plane of the order. */
  ghost predicate AppliesFirst(order: seq<Node>, trace: seq<Event>) {
    forall i | 0 <= i < |Upgraded(trace)| && Upgraded(trace)[i].1 == ApplyRole ::
      i == 0 && order != [] && order[0].role == ControlPlane && Upgraded(trace)[i].0 == order[0].name
  }

  lemma RunAppliesFirst(
      order: seq<Node>, cluster: Cluster, target: string, opts: Options, env: Env,
      after: Cluster, finished: nat, trace: seq<Event>, outcome: Outcome)
    requires Fleet(order) && Covers(cluster, order) && Plan(order, cluster, target).Ok?
    requires Ran(Plan(order, cluster, target).value, cluster, target, opts, env, after, finished, trace, outcome)
    ensures AppliesFirst(order, trace)
  {
    var targets := Plan(order, cluster, target).value;
    RanMeans(targets, cluster, target, opts, env, after, finished, trace, outcome);
    forall i | 0 <= i < |Upgraded(trace)| && Upgraded(trace)[i].1 == ApplyRole
      ensures i == 0 && order[0].role == ControlPlane && Upgraded(trace)[i].0 == order[0].name
    {
      assert Upgraded(trace)[i] == Planned(targets)[i];
      PlannedApply(order, cluster, target, targets, i);
    }
  }

  lemma PlannedApply(order: seq<Node>, cluster: Cluster, target: string, targets: seq<Target>, i: nat)
    requires Fleet(order) && Covers(cluster, order) && Plan(order, cluster, target) == Ok(targets) && i < |targets|
    ensures Planned(targets)[i].1 == ApplyRole ==>
      i == 0 && order != [] && order[0].role == ControlPlane && Planned(targets)[i].0 == order[0].name
  {
    ApplyIsTheFirstControlPlane(order, cluster, target, i);
  }

  lemma FleetTail(order: seq<Node>)
    requires Fleet(order) && order != []
    ensures Fleet(order[1..]) && forall n | n in order[1..] :: n.name != order[0].name
    ensures order[0].role == Worker ==> forall n | n in order[1..] :: n.role == Worker
  {
    var rest := order[1..];
    assert forall i | 0 <= i < |rest| :: rest[i] == order[i + 1];
  }

  lemma FleetGrows(x: Node, p: seq<Node>)
    requires Fleet(p) && (forall n | n in p :: n.name != x.name)
    requires x.role == Worker ==> forall n | n in p :: n.role == Worker
    ensures Fleet([x] + p)
  {
    assert forall j | 0 <= j < |p| :: p[j] in p;
  }

  lemma {:induction false} PendingKeepsOrder(order: seq<Node>, cluster: Cluster, target: string)
    requires Covers(cluster, order) && Fleet(order)
    ensures var p := Pending(order, cluster, target);
      Fleet(p) && (order != [] && cluster[order[0].name] != target ==> p != [] && p[0] == order[0])
  {
    if order != [] {
      var p := Pending(order[1..], cluster, target);
      FleetTail(order);
      PendingKeepsOrder(order[1..], cluster, target);
      PendingFrom(order[1..], cluster, target);
      FleetGrows(order[0], p);
      assert [] + p == p;
    }
  }

  /** The planner's order is control planes first, then by name, and no other arrangement of
      uniquely named nodes is sorted that way. */
  lemma OrderedFleet(nodes: seq<Node>, other: seq<Node>)
    requires DistinctNames(nodes)
    ensures Fleet(Ordered(nodes))
    ensures multiset(other) == multiset(nodes) && SortedBy(other, RolloutKey) ==> other == Ordered(nodes)
  {
    var order := Ordered(nodes);
    SortByDistinct(nodes, RolloutKey, (n: Node) => n.name);
    forall i, j | 0 <= i < j < |order| && order[j].role == ControlPlane ensures order[i].role == ControlPlane {
      assert !Less(RolloutKey(order[j]), RolloutKey(order[i]));
    }
    if multiset(other) == multiset(nodes) && SortedBy(other, RolloutKey) {
      forall x, y | x in order && y in order && RolloutKey(x) == RolloutKey(y) ensures x == y {
        assert RolloutKey(x)[1..] == x.name && RolloutKey(y)[1..] == y.name;
      }
      SortedUnique(order, other, RolloutKey);
    }
  }

  datatype Attempt = Attempt(opts: Options, env: Env)

  /** Exactly the nodes the rollout has reached are on the target, and its plan is what remains. */
  ghost predicate OnTrack(order: seq<Node>, cluster: Cluster, base: string, target: string) {
    && Covers(cluster, order) && AtPrefix(order, cluster, base, target, Reached(order, cluster, target))
    && Plan(order, cluster, target) == Ok(FirstPlan(order, base)[Reached(order, cluster, target)..])
  }

  /** Every node runs the target. */
  ghost predicate Arrived(nodes: seq<Node>, cluster: Cluster, target: string) {
    forall n | n in nodes :: n.name in cluster && cluster[n.name] == target
  }

  /** The run reports that nothing is left to do. */
  predicate Ends(o: Outcome) {
    o == Complete || o == NothingToDo
  }

  /** The refusals that a rollout on track never meets. */
  predicate Impossible(o: Outcome) {
    o == Refused(MixedSource) || o == Refused(WorkerAhead)
  }

  /** One run of the command, as `Upgrade` reports it; requests follow its plan, and `apply` goes to the first
      control plane only. */
  ghost predicate RanOnce(
      nodes: seq<Node>, external: bool, cluster: Cluster, target: string, a: Attempt, after: Cluster, outcome: Outcome)
  {
    Covers(cluster, Ordered(nodes)) && exists targets, finished, trace ::
      && Reported(Connected(nodes, external, cluster, a.env.inspect, target),
           targets, cluster, target, a.opts, a.env, after, finished, trace, outcome)
      && Upgraded(trace) <= Planned(targets) && AppliesFirst(Ordered(nodes), trace)
  }

  /** A run neither leaves the track, nor loses ground, nor is refused for what earlier runs did; one
      that finds nothing left to do leaves every node on the target. */
  ghost predicate Advances(
      nodes: seq<Node>, cluster: Cluster, after: Cluster, base: string, target: string, outcome: Outcome)
  {
    && OnTrack(Ordered(nodes), cluster, base, target) && OnTrack(Ordered(nodes), after, base, target)
    && !Impossible(outcome)
    && Reached(Ordered(nodes), cluster, target) <= Reached(Ordered(nodes), after, target)
    && (Ends(outcome) ==> Arrived(nodes, after, target))
  }

  ghost predicate Step(
      nodes: seq<Node>, external: bool, base: string, target: string, a: Attempt,
      cluster: Cluster, after: Cluster, outcome: Outcome)
  {
    && RanOnce(nodes, external, cluster, target, a, after, outcome)
    && Advances(nodes, cluster, after, base, target, outcome)
  }

  /** Any number of runs of the command from a fleet on one version, each stopped anywhere: the fleet
      stays on track and advances, no run is refused for mixed versions or a worker ahead, and a run
      that ends with nothing left to do leaves every node on the target. */
  method AnyUpgrades(
      nodes: seq<Node>, external: bool, cluster: Cluster, base: string, target: string, attempts: seq<Attempt>)
    returns (fleets: seq<Cluster>, outcomes: seq<Outcome>)
    requires DistinctNames(nodes) && Covers(cluster, nodes) && forall n | n in nodes :: cluster[n.name] == base
    ensures |outcomes| == |attempts| && |fleets| == |attempts| + 1 && fleets[0] == cluster
    ensures forall i | 0 <= i < |attempts| ::
      Step(nodes, external, base, target, attempts[i], fleets[i], fleets[i + 1], outcomes[i])
  {
    fleets, outcomes := [cluster], [];
    StartsOnTrack(nodes, cluster, base, target);
    for i := 0 to |attempts|
      invariant |outcomes| == i && |fleets| == i + 1 && fleets[0] == cluster
      invariant OnTrack(Ordered(nodes), fleets[i], base, target)
      invariant forall k | 0 <= k < i ::
        Step(nodes, external, base, target, attempts[k], fleets[k], fleets[k + 1], outcomes[k])
    {
      var after, outcome := UpgradeOnce(nodes, external, fleets[i], base, target, attempts[i]);
      fleets, outcomes := fleets + [after], outcomes + [outcome];
    }
  }

  lemma StartsOnTrack(nodes: seq<Node>, cluster: Cluster, base: string, target: string)
    requires DistinctNames(nodes) && Covers(cluster, nodes) && forall n | n in nodes :: cluster[n.name] == base
    ensures OnTrack(Ordered(nodes), cluster, base, target)
  {
    var order := Ordered(nodes);
    OrderedFleet(nodes, nodes);
    SameMembers(nodes, order);
    assert forall i | 0 <= i < |order| :: order[i] in order;
    PrefixFacts(order, cluster, base, target, 0);
  }

  method UpgradeOnce(
      nodes: seq<Node>, external: bool, cluster: Cluster, base: string, target: string, attempt: Attempt)
    returns (after: Cluster, outcome: Outcome)
    requires DistinctNames(nodes) && OnTrack(Ordered(nodes), cluster, base, target)
    ensures Step(nodes, external, base, target, attempt, cluster, after, outcome)
  {
    SameMembers(nodes, Ordered(nodes));
    var targets, finished, trace;
    after, targets, finished, trace, outcome := Upgrade(nodes, external, cluster, target, attempt.opts, attempt.env);
    KeepsTrack(nodes, cluster, after, base, target);
    PlansTheRest(nodes, external, cluster, attempt.env.inspect, base, target);
    RefusedFor(Connected(nodes, external, cluster, attempt.env.inspect, target),
      targets, cluster, target, attempt, after, finished, trace, outcome);
    RunFollows(nodes, external, cluster, target, attempt, targets, after, finished, trace, outcome);
    if Ends(outcome) {
      Arrives(nodes, cluster, after, base, target);
    }
  }

  lemma RunFollows(
      nodes: seq<Node>, external: bool, cluster: Cluster, target: string, a: Attempt, targets: seq<Target>,
      after: Cluster, finished: nat, trace: seq<Event>, outcome: Outcome)
    requires DistinctNames(nodes) && Covers(cluster, Ordered(nodes))
    requires Reported(Connected(nodes, external, cluster, a.env.inspect, target),
      targets, cluster, target, a.opts, a.env, after, finished, trace, outcome)
    ensures Upgraded(trace) <= Planned(targets) && AppliesFirst(Ordered(nodes), trace)
  {
    OrderedFleet(nodes, nodes);
    if Connected(nodes, external, cluster, a.env.inspect, target).Ok? {
      RanMeans(targets, cluster, target, a.opts, a.env, after, finished, trace, outcome);
      RunAppliesFirst(Ordered(nodes), cluster, target, a.opts, a.env, after, finished, trace, outcome);
    }
  }

  lemma KeepsTrack(nodes: seq<Node>, cluster: Cluster, after: Cluster, base: string, target: string)
    requires DistinctNames(nodes) && OnTrack(Ordered(nodes), cluster, base, target)
    requires Run(Ordered(nodes), cluster, after, target)
    ensures OnTrack(Ordered(nodes), after, base, target)
    ensures Reached(Ordered(nodes), cluster, target) <= Reached(Ordered(nodes), after, target)
  {
    var order := Ordered(nodes);
    OrderedFleet(nodes, nodes);
    var k := RunFromPrefix(order, cluster, after, base, target, Reached(order, cluster, target));
    PrefixFacts(order, after, base, target, k);
  }

  /** On track, a run is refused only when it cannot look at the fleet. */
  lemma PlansTheRest(
      nodes: seq<Node>, external: bool, cluster: Cluster, inspect: string -> Inspection, base: string, target: string)
    requires OnTrack(Ordered(nodes), cluster, base, target)
    ensures var plan := Connected(nodes, external, cluster, inspect, target);
      && Lookable(plan)
      && (plan.Ok? ==> plan.value == FirstPlan(Ordered(nodes), base)[Reached(Ordered(nodes), cluster, target)..])
  {
  }

  predicate Lookable(plan: Result<seq<Target>, PlanError>) {
    plan.Err? ==> plan.error == NoControlPlane || plan.error == InspectionFailed
  }

  lemma RefusedFor(
      plan: Result<seq<Target>, PlanError>, targets: seq<Target>, cluster: Cluster, target: string, attempt: Attempt,
      after: Cluster, finished: nat, trace: seq<Event>, outcome: Outcome)
    requires Lookable(plan)
    requires Reported(plan, targets, cluster, target, attempt.opts, attempt.env, after, finished, trace, outcome)
    ensures !Impossible(outcome)
    ensures Ends(outcome) ==> plan == Ok(targets) && after == Moved(cluster, targets, target)
  {
    if Ends(outcome) {
      EndMoves(targets, cluster, target, attempt.opts, attempt.env, after, finished, trace, outcome);
    }
  }

  lemma Arrives(nodes: seq<Node>, cluster: Cluster, after: Cluster, base: string, target: string)
    requires DistinctNames(nodes) && OnTrack(Ordered(nodes), cluster, base, target)
    requires var rest := FirstPlan(Ordered(nodes), base)[Reached(Ordered(nodes), cluster, target)..];
      after == Moved(cluster, rest, target)
    ensures Arrived(nodes, after, target)
  {
    OrderedFleet(nodes, nodes);
    SameMembers(nodes, Ordered(nodes));
    FinishedAt(Ordered(nodes), cluster, after, base, target, Reached(Ordered(nodes), cluster, target));
  }

  /** Moving everything that was left reaches the end of the order. */
  lemma FinishedAt(order: seq<Node>, cluster: Cluster, after: Cluster, base: string, target: string, was: nat)
    requires Fleet(order) && AtPrefix(order, cluster, base, target, was)
    requires after == Moved(cluster, FirstPlan(order, base)[was..], target)
    ensures Arrived(order, after, target)
  {
    var rest := FirstPlan(order, base)[was..];
    assert rest[..|rest|] == rest;
    MovedAlongOrder(order, cluster, base, target, was, |rest|);
  }
}
