/** Applying a cluster configuration in two phases: every selected node validates it before any node
    receives it, and each Kubernetes component is then rolled out node by node, all dry runs
    first. Node agents are an environment whose replies are arbitrary. */
module ClusterApply {
  import opened Results
  import opened Text
  import opened Inventory
  import opened ClusterOrder

  /** Requests sent to nodes. Validation and dry runs change nothing. */
  datatype Event =
    | Validate(node: string)
    | Submit(node: string)
    | DryRun(component: Component, node: string)
    | Apply(component: Component, node: string)

  ghost predicate Mutating(e: Event) {
    e.Submit? || e.Apply?
  }

  datatype Mode = Live | NextBoot | OtherMode

  /** What inspection and validation of one node gave. `allowed` covers its identity, its lifecycle
      and an unfinished join. */
  datatype Validation = Validation(
    rendered: bool, reached: bool, allowed: bool, replied: bool, accepted: bool, reported: bool,
    noChanges: bool, diagnostics: bool, mode: Mode, kubernetesChange: bool, configured: bool,
    generation: string, components: set<Component>)

  datatype SubmitReply =
    SubmitReply(reached: bool, submitted: bool, succeeded: bool, reported: bool, generation: string)

  datatype ComponentReply = ComponentReply(
    inspected: bool, payload: string, dryRun: bool,
    announced: bool, submitted: bool, succeeded: bool, reported: bool)

  /** Replies of the nodes, and which progress lines of the command could be written. */
  datatype Env = Env(
    validation: string -> Validation, submission: string -> SubmitReply,
    component: (Component, string) -> ComponentReply, preflightReported: Component -> bool,
    begun: bool, skipped: Component -> bool, started: Component -> bool, completed: Component -> bool, report: bool)

  // ---------------------------------------------------------------------------------------
  // Validation

  /** The node may receive the configuration. */
  ghost predicate Passes(v: Validation) {
    && v.rendered && v.reached && v.allowed && v.replied && v.accepted && v.reported
    && if v.noChanges then !v.diagnostics
       else !(v.mode == NextBoot && v.kubernetesChange) && v.mode != OtherMode
  }

  ghost predicate AllPass(selected: seq<Entry>, env: Env) {
    forall n | n in selected :: Passes(env.validation(n.name))
  }

  ghost predicate Uniform(selected: seq<Entry>, env: Env) {
    || (forall n | n in selected :: env.validation(n.name).configured)
    || (forall n | n in selected :: !env.validation(n.name).configured)
  }

  ghost predicate Ready(selected: seq<Entry>, env: Env) {
    AllPass(selected, env) && Uniform(selected, env)
  }

  function Validates(nodes: seq<Entry>): (r: seq<Event>)
    ensures |r| == |nodes| && forall i | 0 <= i < |nodes| :: r[i] == Validate(nodes[i].name)
  {
    seq(|nodes|, i requires 0 <= i < |nodes| => Validate(nodes[i].name))
  }

  /** The first `k` of the nodes are good, and the next one, if there is one, is not. */
  ghost predicate StopsAt(nodes: seq<Entry>, k: nat, good: Entry -> bool) {
    && k <= |nodes| && (forall i | 0 <= i < k :: good(nodes[i])) && (k < |nodes| ==> !good(nodes[k]))
  }

  ghost function Passing(env: Env): Entry -> bool {
    (n: Entry) => Passes(env.validation(n.name))
  }

  /** Nothing is asked unless everything renders; the first node that does not pass stops the run, asked if
      it could be reached and may receive a configuration. */
  ghost predicate ValidationsRan(selected: seq<Entry>, env: Env, ok: bool, trace: seq<Event>) {
    if exists n :: n in selected && !env.validation(n.name).rendered then !ok && trace == []
    else exists k: nat ::
      && StopsAt(selected, k, Passing(env)) && (ok <==> k == |selected|)
      && trace == Validates(selected[..k])
           + if k < |selected| && Receives(env.validation(selected[k].name)) then [Validate(selected[k].name)] else []
  }

  ghost predicate Receives(v: Validation) {
    v.reached && v.allowed
  }

  /** All nodes are rendered before the first is asked; the first that does not pass stops the run. */
  method ValidateAll(selected: seq<Entry>, env: Env) returns (ok: bool, trace: seq<Event>)
    ensures ok <==> AllPass(selected, env)
    ensures ValidationsRan(selected, env, ok, trace)
    ensures ok ==> trace == Validates(selected)
  {
    trace := [];
    for i := 0 to |selected|
      invariant forall j | 0 <= j < i :: env.validation(selected[j].name).rendered
    {
      if !env.validation(selected[i].name).rendered {
        assert selected[i] in selected;
        return false, [];
      }
    }
    for i := 0 to |selected|
      invariant trace == Validates(selected[..i])
      invariant forall j | 0 <= j < i :: Passes(env.validation(selected[j].name))
    {
      assert selected[i] in selected;
      assert Validates(selected[..i + 1]) == Validates(selected[..i]) + [Validate(selected[i].name)];
      var asked;
      ok, asked := ValidateOne(env.validation(selected[i].name));
      if asked {
        trace := trace + [Validate(selected[i].name)];
      }
      if !ok {
        assert StopsAt(selected, i, Passing(env));
        return;
      }
    }
    assert selected[..|selected|] == selected;
    assert StopsAt(selected, |selected|, Passing(env));
    ok := true;
  }

  /** Inspect one rendered node and ask it to validate. */
  method ValidateOne(v: Validation) returns (ok: bool, asked: bool)
    requires v.rendered
    ensures ok <==> Passes(v)
    ensures asked <==> Receives(v)
  {
    if !v.reached || !v.allowed {
      return false, false;
    }
    asked := true;
    if !v.replied || !v.accepted || !v.reported {
      return false, asked;
    }
    if v.noChanges {
      return !v.diagnostics, asked;
    }
    if v.mode == NextBoot && v.kubernetesChange {
      return false, asked;
    }
    ok := v.mode == Live || v.mode == NextBoot;
  }

  // ---------------------------------------------------------------------------------------
  // Activation

  ghost function Changed(selected: seq<Entry>, env: Env): seq<Entry> {
    if selected == [] then []
    else
      var n := |selected| - 1;
      Changed(selected[..n], env) + (if env.validation(selected[n].name).noChanges then [] else [selected[n]])
  }

  function Submits(nodes: seq<Entry>): (r: seq<Event>)
    ensures |r| == |nodes| && forall i | 0 <= i < |nodes| :: r[i] == Submit(nodes[i].name)
  {
    seq(|nodes|, i requires 0 <= i < |nodes| => Submit(nodes[i].name))
  }

  lemma {:induction false} ChangedPrefix(selected: seq<Entry>, k: nat, env: Env)
    requires k <= |selected|
    ensures Changed(selected[..k], env) <= Changed(selected, env)
  {
    if k == |selected| {
      assert selected[..k] == selected;
    } else {
      var front := selected[..|selected| - 1];
      ChangedPrefix(front, k, env);
      assert front[..k] == selected[..k];
    }
  }

  /** The generation each node ends on; unchanged nodes keep theirs. */
  datatype Activated = Activated(generations: map<string, string>, preBootstrap: bool, staged: set<string>)

  /** The node needs nothing or takes its configuration. */
  ghost predicate Accepted(n: string, env: Env) {
    var r := env.submission(n);
    env.validation(n).noChanges || (r.reached && r.submitted && r.succeeded && r.reported)
  }

  ghost predicate SubmissionsWork(selected: seq<Entry>, env: Env) {
    forall n | n in selected :: Accepted(n.name, env)
  }

  ghost function Accepting(env: Env): Entry -> bool {
    (n: Entry) => Accepted(n.name, env)
  }

  /** The first changed node whose submission fails stops the run, asked if it could be reached. */
  ghost predicate SubmissionsRan(selected: seq<Entry>, env: Env, ok: bool, trace: seq<Event>) {
    var changed := Changed(selected, env);
    exists k: nat ::
      && StopsAt(changed, k, Accepting(env)) && (ok <==> k == |changed|)
      && trace == Submits(changed[..k])
           + if k < |changed| && env.submission(changed[k].name).reached then [Submit(changed[k].name)] else []
  }

  /** Submit to the changed nodes in order and stop at the first that fails. */
  method SubmitAll(selected: seq<Entry>, env: Env)
    returns (ok: bool, trace: seq<Event>, generations: map<string, string>)
    ensures SubmissionsRan(selected, env, ok, trace)
    ensures ok ==> trace == Submits(Changed(selected, env))
    ensures ok ==> Generated(selected, env, generations)
    ensures ok <==> SubmissionsWork(selected, env)
  {
    trace, generations := [], map[];
    for i := 0 to |selected|
      invariant Submitting(selected, i, env, trace, generations)
    {
      var asked, generation;
      ok, asked, generation := SubmitOne(selected[i].name, env);
      if !ok {
        SubmitStops(selected, i, env, trace, generations);
        trace := if asked then trace + [Submit(selected[i].name)] else trace;
        return;
      }
      SubmitGoes(selected, i, env, trace, generations);
      trace := if asked then trace + [Submit(selected[i].name)] else trace;
      generations := generations[selected[i].name := generation];
    }
    ok := true;
    SubmitEnds(selected, env, trace, generations);
  }

  /** Submit to one node, unless it has no changes. */
  method SubmitOne(n: string, env: Env) returns (ok: bool, asked: bool, generation: string)
    ensures ok <==> Accepted(n, env)
    ensures asked <==> !env.validation(n).noChanges && env.submission(n).reached
    ensures generation == GenerationOf(n, env)
  {
    if env.validation(n).noChanges {
      return true, false, env.validation(n).generation;
    }
    var r := env.submission(n);
    return r.reached && r.submitted && r.succeeded && r.reported, r.reached, r.generation;
  }

  /** The first `i` nodes need nothing or took their configuration. */
  ghost predicate Submitting(
      selected: seq<Entry>, i: nat, env: Env, trace: seq<Event>, generations: map<string, string>)
  {
    && i <= |selected| && trace == Submits(Changed(selected[..i], env))
    && (forall j | 0 <= j < i :: Accepted(selected[j].name, env)) && Generated(selected[..i], env, generations)
  }

  lemma SubmitGoes(selected: seq<Entry>, i: nat, env: Env, trace: seq<Event>, generations: map<string, string>)
    requires i < |selected| && Submitting(selected, i, env, trace, generations) && Accepted(selected[i].name, env)
    ensures var n := selected[i].name;
      Submitting(selected, i + 1, env, trace + (if env.validation(n).noChanges then [] else [Submit(n)]),
        generations[n := GenerationOf(n, env)])
  {
    SubmitStep(selected, i, env);
    assert selected[..i + 1] == selected[..i] + [selected[i]];
  }

  lemma SubmitStops(selected: seq<Entry>, i: nat, env: Env, trace: seq<Event>, generations: map<string, string>)
    requires i < |selected| && Submitting(selected, i, env, trace, generations) && !Accepted(selected[i].name, env)
    ensures var n := selected[i].name;
      SubmissionsRan(selected, env, false, if env.submission(n).reached then trace + [Submit(n)] else trace)
    ensures !SubmissionsWork(selected, env)
  {
    var all, front := Changed(selected, env), Changed(selected[..i], env);
    assert selected[i] in selected;
    SubmitStep(selected, i, env);
    ChangedMembers(selected[..i], env);
    StoppedAt(all, front, selected[i], Accepting(env));
  }

  lemma SubmitEnds(selected: seq<Entry>, env: Env, trace: seq<Event>, generations: map<string, string>)
    requires Submitting(selected, |selected|, env, trace, generations)
    ensures SubmissionsRan(selected, env, true, trace) && trace == Submits(Changed(selected, env))
    ensures Generated(selected, env, generations) && SubmissionsWork(selected, env)
  {
    var all := Changed(selected, env);
    assert selected[..|selected|] == selected && all[..|all|] == all;
    ChangedMembers(selected, env);
    assert StopsAt(all, |all|, Accepting(env));
  }

  lemma {:induction false} ChangedMembers(selected: seq<Entry>, env: Env)
    ensures forall n | n in Changed(selected, env) :: n in selected
  {
    if selected != [] {
      ChangedMembers(selected[..|selected| - 1], env);
    }
  }

  /** Every node ends on its generation. */
  ghost predicate Generated(selected: seq<Entry>, env: Env, generations: map<string, string>) {
    forall n | n in selected :: n.name in generations && generations[n.name] == GenerationOf(n.name, env)
  }

  ghost function GenerationOf(n: string, env: Env): string {
    if env.validation(n).noChanges then env.validation(n).generation else env.submission(n).generation
  }

  lemma StoppedAt(all: seq<Entry>, front: seq<Entry>, n: Entry, good: Entry -> bool)
    requires front + [n] <= all && (forall m | m in front :: good(m)) && !good(n)
    ensures StopsAt(all, |front|, good) && all[..|front|] == front && all[|front|] == n
  {
    assert all[|front|] == (front + [n])[|front|];
    assert all[..|front|] == (front + [n])[..|front|] == front;
  }

  /** What one more node adds to the submissions. */
  lemma SubmitStep(selected: seq<Entry>, i: nat, env: Env)
    requires i < |selected|
    ensures var all, was, now := Changed(selected, env), Changed(selected[..i], env), Changed(selected[..i + 1], env);
      && |was| <= |all| && was == all[..|was|] && |now| <= |all| && now == all[..|now|]
      && now == was + (if env.validation(selected[i].name).noChanges then [] else [selected[i]])
      && Submits(now) == Submits(was)
        + (if env.validation(selected[i].name).noChanges then [] else [Submit(selected[i].name)])
  {
    assert selected[..i + 1][..i] == selected[..i];
    ChangedPrefix(selected, i, env);
    ChangedPrefix(selected, i + 1, env);
  }

  /** The two phases: what was sent is a run of validations, then a run of submissions; there is a
      submission only without --plan and after every selected node passed, all of them
      bootstrapped or none. */
  ghost predicate TwoPhase(selected: seq<Entry>, plan: bool, env: Env, trace: seq<Event>, v: nat, s: nat) {
    && v <= |selected| && s <= |Changed(selected, env)|
    && trace == Validates(selected[..v]) + Submits(Changed(selected, env)[..s])
    && (s > 0 ==> v == |selected| && Ready(selected, env) && !plan)
  }

  /** Validations, then submissions: these without --plan only, after every node passed and all or none are
      bootstrapped. */
  ghost predicate ActivationRan(selected: seq<Entry>, plan: bool, env: Env, went: bool, trace: seq<Event>) {
    exists passed, first ::
      && ValidationsRan(selected, env, passed, first)
      && if !passed || !Uniform(selected, env) then !went && trace == first
         else if plan then went && trace == first
         else exists second :: SubmissionsRan(selected, env, went, second) && trace == first + second
  }

  method Activate(selected: seq<Entry>, plan: bool, env: Env) returns (r: Option<Activated>, trace: seq<Event>)
    ensures ActivationRan(selected, plan, env, r.Some?, trace)
    ensures r.Some? ==> Ready(selected, env)
    ensures r.Some? <==> Ready(selected, env) && (plan || SubmissionsWork(selected, env))
    ensures r.Some? ==> trace == Validates(selected) + (if plan then [] else Submits(Changed(selected, env)))
    ensures r.Some? && !plan ==> Generated(selected, env, r.value.generations)
    ensures r.Some? ==>
      (r.value.preBootstrap <==> selected != [] && forall n | n in selected :: !env.validation(n.name).configured)
    ensures r.Some? ==> r.value.staged == set n | n in selected && env.validation(n.name).mode == NextBoot :: n.name
  {
    var ok: bool;
    ok, trace := ValidateAll(selected, env);
    if !ok {
      return None, trace;
    }
    var count := CountNotConfigured(selected, env);
    var preBootstrap := |selected| > 0 && count == |selected|;
    if count > 0 && !preBootstrap {
      return None, trace;
    }
    var generations := map[];
    if !plan {
      var sent;
      ok, sent, generations := SubmitAll(selected, env);
      trace := trace + sent;
      if !ok {
        return None, trace;
      }
    }
    var staged := NextBootNodes(selected, env);
    r := Some(Activated(generations, preBootstrap, staged));
  }

  /** In such a run a submission comes only without --plan and after every selected node passed. */
  lemma ActivationPhases(selected: seq<Entry>, plan: bool, env: Env, went: bool, trace: seq<Event>)
    returns (v: nat, s: nat)
    requires ActivationRan(selected, plan, env, went, trace)
    ensures TwoPhase(selected, plan, env, trace, v, s)
  {
    var passed, first :| ValidationsRan(selected, env, passed, first)
      && if !passed || !Uniform(selected, env) then !went && trace == first
         else if plan then went && trace == first
         else exists second :: SubmissionsRan(selected, env, went, second) && trace == first + second;
    v := ValidatedTo(selected, env, passed, first);
    s := 0;
    if !passed || !Uniform(selected, env) || plan {
      NoSubmissions(selected, plan, env, trace, v);
    } else {
      var second :| SubmissionsRan(selected, env, went, second) && trace == first + second;
      s := SubmittedTo(selected, env, went, second);
    }
  }

  lemma ValidatedTo(selected: seq<Entry>, env: Env, ok: bool, trace: seq<Event>) returns (v: nat)
    requires ValidationsRan(selected, env, ok, trace)
    ensures v <= |selected| && trace == Validates(selected[..v]) && (ok ==> v == |selected| && AllPass(selected, env))
  {
    if exists n :: n in selected && !env.validation(n.name).rendered {
      v := 0;
    } else {
      var k: nat :| StopsAt(selected, k, Passing(env)) && (ok <==> k == |selected|)
        && trace == Validates(selected[..k])
           + if k < |selected| && Receives(env.validation(selected[k].name)) then [Validate(selected[k].name)] else [];
      v := |trace|;
    }
  }

  lemma SubmittedTo(selected: seq<Entry>, env: Env, ok: bool, trace: seq<Event>) returns (s: nat)
    requires SubmissionsRan(selected, env, ok, trace)
    ensures s <= |Changed(selected, env)| && trace == Submits(Changed(selected, env)[..s])
  {
    s := |trace|;
  }

  lemma NoSubmissions(selected: seq<Entry>, plan: bool, env: Env, trace: seq<Event>, k: nat)
    requires k <= |selected| && trace == Validates(selected[..k])
    ensures TwoPhase(selected, plan, env, trace, k, 0)
  {
    assert Submits(Changed(selected, env)[..0]) == [];
    assert trace + [] == trace;
  }

  method CountNotConfigured(selected: seq<Entry>, env: Env) returns (count: nat)
    ensures count == 0 <==> forall n | n in selected :: env.validation(n.name).configured
    ensures count == |selected| <==> forall n | n in selected :: !env.validation(n.name).configured
  {
    count := 0;
    for i := 0 to |selected|
      invariant count <= i
      invariant count == 0 <==> forall j | 0 <= j < i :: env.validation(selected[j].name).configured
      invariant count == i <==> forall j | 0 <= j < i :: !env.validation(selected[j].name).configured
    {
      if !env.validation(selected[i].name).configured {
        count := count + 1;
      }
    }
  }

  method NextBootNodes(selected: seq<Entry>, env: Env) returns (staged: set<string>)
    ensures staged == set n | n in selected && env.validation(n.name).mode == NextBoot :: n.name
  {
    staged := {};
    for i := 0 to |selected|
      invariant staged == set n | n in selected[..i] && env.validation(n.name).mode == NextBoot :: n.name
    {
      assert selected[..i + 1] == selected[..i] + [selected[i]];
      if env.validation(selected[i].name).mode == NextBoot {
        staged := staged + {selected[i].name};
      }
    }
    assert selected[..|selected|] == selected;
  }

  // ---------------------------------------------------------------------------------------
  // One component

  function DryRuns(c: Component, nodes: seq<Entry>): (r: seq<Event>)
    ensures |r| == |nodes| && forall i | 0 <= i < |nodes| :: r[i] == DryRun(c, nodes[i].name)
  {
    seq(|nodes|, i requires 0 <= i < |nodes| => DryRun(c, nodes[i].name))
  }

  function Applies(c: Component, nodes: seq<Entry>): (r: seq<Event>)
    ensures |r| == |nodes| && forall i | 0 <= i < |nodes| :: r[i] == Apply(c, nodes[i].name)
  {
    seq(|nodes|, i requires 0 <= i < |nodes| => Apply(c, nodes[i].name))
  }

  /** Every target is inspected, runs the same Kubernetes payload and accepts its dry run. */
  ghost predicate Rehearsed(c: Component, order: seq<Entry>, env: Env) {
    Inspected(c, order, env) && forall n | n in order :: env.component(c, n.name).dryRun
  }

  ghost predicate Inspected(c: Component, order: seq<Entry>, env: Env) {
    && (forall n | n in order :: env.component(c, n.name).inspected)
    && forall i, j | 0 <= i < j < |order| ::
         env.component(c, order[i].name).payload == env.component(c, order[j].name).payload
  }

  ghost predicate Succeeds(r: ComponentReply) {
    r.announced && r.submitted && r.succeeded && r.reported
  }

  /** `d` dry runs and `a` applications were sent; applications only after every dry run was
      accepted, and all but the last of them succeeded. */
  ghost predicate RolledOut(c: Component, order: seq<Entry>, env: Env, trace: seq<Event>, d: nat, a: nat) {
    && d <= |order| && a <= |order|
    && trace == DryRuns(c, order[..d]) + Applies(c, order[..a])
    && (a > 0 ==> d == |order| && Rehearsed(c, order, env))
    && forall i | 0 <= i < a - 1 :: Succeeds(env.component(c, order[i].name))
  }

  method InspectTargets(c: Component, order: seq<Entry>, env: Env) returns (ok: bool)
    ensures ok <==> Inspected(c, order, env)
  {
    for i := 0 to |order|
      invariant forall j | 0 <= j < i ::
        && env.component(c, order[j].name).inspected
        && env.component(c, order[j].name).payload == env.component(c, order[0].name).payload
    {
      var r := env.component(c, order[i].name);
      assert order[i] in order;
      if !r.inspected {
        return false;
      }
      if i > 0 && r.payload != env.component(c, order[0].name).payload {
        return false;
      }
    }
    return true;
  }

  ghost function Rehearsing(c: Component, env: Env): Entry -> bool {
    (n: Entry) => env.component(c, n.name).dryRun
  }

  ghost function Succeeding(c: Component, env: Env): Entry -> bool {
    (n: Entry) => Succeeds(env.component(c, n.name))
  }

  /** Every target is asked, up to the first that refuses. */
  ghost predicate DryRunsRan(c: Component, order: seq<Entry>, env: Env, ok: bool, trace: seq<Event>) {
    exists k: nat ::
      && StopsAt(order, k, Rehearsing(c, env)) && (ok <==> k == |order|)
      && trace == DryRuns(c, order[..if ok then k else k + 1])
  }

  method DryRunAll(c: Component, order: seq<Entry>, env: Env) returns (ok: bool, trace: seq<Event>)
    ensures DryRunsRan(c, order, env, ok, trace)
    ensures ok ==> trace == DryRuns(c, order)
    ensures ok <==> forall n | n in order :: env.component(c, n.name).dryRun
  {
    trace := [];
    ghost var good := Rehearsing(c, env);
    for i := 0 to |order|
      invariant trace == DryRuns(c, order[..i])
      invariant forall j | 0 <= j < i :: good(order[j])
    {
      trace := trace + [DryRun(c, order[i].name)];
      assert trace == DryRuns(c, order[..i + 1]) && order[i] in order;
      if !env.component(c, order[i].name).dryRun {
        assert StopsAt(order, i, good);
        return false, trace;
      }
    }
    assert order[..|order|] == order && StopsAt(order, |order|, good);
    ok := true;
  }

  /** The first `k` nodes succeed; the next one, if there is one, does not, and was asked if that could be
      announced. */
  ghost predicate AppliesRan(c: Component, order: seq<Entry>, env: Env, k: nat, trace: seq<Event>) {
    && StopsAt(order, k, Succeeding(c, env))
    && trace == Applies(c, order[..k])
         + if k < |order| && env.component(c, order[k].name).announced then [Apply(c, order[k].name)] else []
  }

  /** The nodes that finished are a prefix of the order. */
  method ApplyAll(c: Component, order: seq<Entry>, env: Env) returns (ok: bool, trace: seq<Event>, done: seq<Entry>)
    ensures done <= order && (ok <==> done == order) && AppliesRan(c, order, env, |done|, trace)
    ensures ok <==> forall n | n in order :: Succeeds(env.component(c, n.name))
  {
    trace, done := [], [];
    ghost var good := Succeeding(c, env);
    for i := 0 to |order|
      invariant done == order[..i] && trace == Applies(c, done)
      invariant forall j | 0 <= j < i :: good(order[j])
    {
      var r := env.component(c, order[i].name);
      assert order[i] in order;
      if !r.announced {
        assert StopsAt(order, i, good);
        return false, trace, done;
      }
      trace := trace + [Apply(c, order[i].name)];
      if !r.submitted || !r.succeeded || !r.reported {
        assert StopsAt(order, i, good);
        return false, trace, done;
      }
      done := done + [order[i]];
      assert done == order[..i + 1];
    }
    assert StopsAt(order, |order|, good);
    ok := true;
  }

  /** Nothing stops the component on these nodes. */
  ghost predicate Goes(c: Component, order: seq<Entry>, env: Env) {
    Rehearsed(c, order, env) && env.preflightReported(c) && forall n | n in order :: Succeeds(env.component(c, n.name))
  }

  /** How the component goes on these nodes: nothing unless all are inspected and alike, no application
      unless all accepted their dry run, and none after the first that fails. */
  ghost predicate ComponentRan(c: Component, order: seq<Entry>, env: Env, ok: bool, trace: seq<Event>) {
    if !Inspected(c, order, env) then !ok && trace == []
    else exists rehearsed, first ::
      && DryRunsRan(c, order, env, rehearsed, first)
      && if !rehearsed || !env.preflightReported(c) then !ok && trace == first
         else exists k: nat, second ::
           AppliesRan(c, order, env, k, second) && trace == first + second && (ok <==> k == |order|)
  }

  method RunComponent(c: Component, order: seq<Entry>, env: Env) returns (ok: bool, trace: seq<Event>, done: seq<Entry>)
    ensures ComponentRan(c, order, env, ok, trace)
    ensures done <= order && (ok ==> done == order)
    ensures forall n | n in done :: Succeeds(env.component(c, n.name))
    ensures ok ==> trace == DryRuns(c, order) + Applies(c, order)
    ensures ok <==> Goes(c, order, env)
  {
    trace, done := [], [];
    ok := InspectTargets(c, order, env);
    if !ok {
      return;
    }
    var first;
    ok, first := DryRunAll(c, order, env);
    if !ok || !env.preflightReported(c) {
      return false, first, done;
    }
    var second;
    ok, second, done := ApplyAll(c, order, env);
    trace := first + second;
    assert order[..|order|] == order;
    assert forall i | 0 <= i < |done| :: done[i] == order[i];
  }

  /** Such a run sends applications only after every dry run was accepted. */
  lemma ComponentPhases(c: Component, order: seq<Entry>, env: Env, ok: bool, trace: seq<Event>) returns (d: nat, a: nat)
    requires ComponentRan(c, order, env, ok, trace)
    ensures RolledOut(c, order, env, trace, d, a)
  {
    d, a := 0, 0;
    if !Inspected(c, order, env) {
      NoApplications(c, order, env, trace, 0);
      return;
    }
    var rehearsed, first :| DryRunsRan(c, order, env, rehearsed, first)
      && if !rehearsed || !env.preflightReported(c) then !ok && trace == first
         else exists k: nat, second ::
           AppliesRan(c, order, env, k, second) && trace == first + second && (ok <==> k == |order|);
    d := |first|;
    RehearsedTo(c, order, env, rehearsed, first);
    if !rehearsed || !env.preflightReported(c) {
      NoApplications(c, order, env, trace, d);
    } else {
      var k: nat, second :| AppliesRan(c, order, env, k, second) && trace == first + second && (ok <==> k == |order|);
      a := |second|;
      AppliedTo(c, order, env, k, second);
    }
  }

  lemma RehearsedTo(c: Component, order: seq<Entry>, env: Env, ok: bool, trace: seq<Event>)
    requires DryRunsRan(c, order, env, ok, trace)
    ensures |trace| <= |order| && trace == DryRuns(c, order[..|trace|])
    ensures ok ==> |trace| == |order| && forall n | n in order :: env.component(c, n.name).dryRun
  {
    var good := Rehearsing(c, env);
    var k: nat :|
      StopsAt(order, k, good) && (ok <==> k == |order|) && trace == DryRuns(c, order[..if ok then k else k + 1]);
    if ok {
      forall n | n in order ensures good(n) {
        var i :| 0 <= i < |order| && order[i] == n;
      }
    }
  }

  lemma AppliedTo(c: Component, order: seq<Entry>, env: Env, k: nat, trace: seq<Event>)
    requires AppliesRan(c, order, env, k, trace)
    ensures |trace| <= |order| && trace == Applies(c, order[..|trace|])
    ensures forall i | 0 <= i < |trace| - 1 :: Succeeds(env.component(c, order[i].name))
  {
  }

  lemma NoApplications(c: Component, order: seq<Entry>, env: Env, trace: seq<Event>, d: nat)
    requires d <= |order| && trace == DryRuns(c, order[..d])
    ensures RolledOut(c, order, env, trace, d, 0)
  {
    assert trace + Applies(c, order[..0]) == trace;
  }

  // ---------------------------------------------------------------------------------------
  // The whole command

  datatype Options = Options(plan: bool, selected: seq<string>, coordinator: string, external: bool)

  function Tidy(opts: Options): Options {
    opts.(coordinator := Trim(opts.coordinator))
  }

  /** A coordinator must be among the selected nodes, and external workers have none. */
  ghost predicate Admitted(opts: Options) {
    Trim(opts.coordinator) == ""
    || (!opts.external && (opts.selected == [] || Trim(opts.coordinator) in opts.selected))
  }

  /** Every mutating request comes without --plan, after all selected nodes validated. */
  ghost predicate ValidatedFirst(selected: seq<Entry>, plan: bool, env: Env, trace: seq<Event>) {
    forall i | 0 <= i < |trace| && Mutating(trace[i]) ::
      && !plan && Ready(selected, env)
      && forall n | n in selected :: Validate(n.name) in trace[..i]
  }

  /** No dry run of a component follows an application of it, and every application was rehearsed. */
  ghost predicate RehearsedFirst(trace: seq<Event>) {
    forall i | 0 <= i < |trace| && trace[i].Apply? ::
      && DryRun(trace[i].component, trace[i].node) in trace[..i]
      && forall j | i < j < |trace| && trace[j].DryRun? :: trace[j].component != trace[i].component
  }

  ghost predicate Only(trace: seq<Event>, cs: set<Component>) {
    forall e | e in trace && (e.DryRun? || e.Apply?) :: e.component in cs
  }

  lemma ActivationSafe(selected: seq<Entry>, plan: bool, env: Env, trace: seq<Event>, v: nat, s: nat)
    requires TwoPhase(selected, plan, env, trace, v, s)
    ensures ValidatedFirst(selected, plan, env, trace) && RehearsedFirst(trace) && Only(trace, {})
    ensures plan ==> forall e | e in trace :: e.Validate?
  {
    var first := Validates(selected[..v]);
    forall i | 0 <= i < |trace| && Mutating(trace[i]) ensures !plan && Ready(selected, env)
      ensures forall n | n in selected :: Validate(n.name) in trace[..i]
    {
      assert i >= |first| == v == |selected|;
      assert selected[..v] == selected;
      forall n | n in selected ensures Validate(n.name) in trace[..i] {
        var k :| 0 <= k < |selected| && selected[k] == n;
        assert trace[..i][k] == first[k] == Validate(n.name);
      }
    }
  }

  lemma ComponentSafe(c: Component, order: seq<Entry>, env: Env, trace: seq<Event>, d: nat, a: nat)
    requires RolledOut(c, order, env, trace, d, a)
    ensures RehearsedFirst(trace) && Only(trace, {c})
  {
    var first := DryRuns(c, order[..d]);
    forall i | 0 <= i < |trace| && trace[i].Apply?
      ensures DryRun(trace[i].component, trace[i].node) in trace[..i]
      ensures forall j | i < j < |trace| && trace[j].DryRun? :: trace[j].component != trace[i].component
    {
      assert i >= |first| == d;
      assert trace[i] == Applies(c, order[..a])[i - d];
      assert trace[..i][i - d] == first[i - d] == DryRun(c, order[i - d].name);
    }
  }

  lemma Appended(
      selected: seq<Entry>, plan: bool, env: Env, trace: seq<Event>, more: seq<Event>, cs: set<Component>, c: Component)
    requires ValidatedFirst(selected, plan, env, trace) && RehearsedFirst(trace) && Only(trace, cs)
    requires RehearsedFirst(more) && Only(more, {c}) && c !in cs
    requires !plan && Ready(selected, env) && forall n | n in selected :: Validate(n.name) in trace
    ensures ValidatedFirst(selected, plan, env, trace + more)
    ensures RehearsedFirst(trace + more) && Only(trace + more, cs + {c})
  {
    var all := trace + more;
    forall i | 0 <= i < |all| && Mutating(all[i]) ensures forall n | n in selected :: Validate(n.name) in all[..i] {
      if i < |trace| {
        assert all[..i] == trace[..i] && all[i] == trace[i];
      } else {
        assert all[..i] == trace + more[..i - |trace|];
      }
    }
    forall i | 0 <= i < |all| && all[i].Apply?
      ensures DryRun(all[i].component, all[i].node) in all[..i]
      ensures forall j | i < j < |all| && all[j].DryRun? :: all[j].component != all[i].component
    {
      if i < |trace| {
        assert all[..i] == trace[..i] && all[i] == trace[i] && trace[i] in trace;
        assert forall j | |trace| <= j < |all| :: all[j] in more;
      } else {
        assert all[..i] == trace + more[..i - |trace|] && all[i] == more[i - |trace|];
        assert forall j | i < j < |all| :: all[j] == more[j - |trace|];
      }
    }
  }

  method Admit(opts: Options) returns (ok: bool)
    ensures ok <==> Admitted(opts)
  {
    var coordinator := Trim(opts.coordinator);
    if |opts.selected| > 0 && coordinator != "" && coordinator !in opts.selected {
      return false;
    }
    if opts.external && coordinator != "" {
      return false;
    }
    return true;
  }

  /** Refuse a coordinator that does not fit, select, activate, and unless only planning roll out each
      component, stopping at the first that fails; components wait for reboots and for bootstrap. */
  method ApplyCluster(nodes: seq<Entry>, opts: Options, env: Env)
    returns (ok: bool, trace: seq<Event>, ghost selected: seq<Entry>)
    ensures selected == Narrowed(nodes, opts.selected)
    ensures !Admitted(opts) || !env.begun ==> !ok && trace == []
    ensures ValidatedFirst(selected, opts.plan, env, trace) && RehearsedFirst(trace)
    ensures opts.plan ==> forall e | e in trace :: e.Validate?
    ensures MustWait(selected, env) ==> Only(trace, {})
    ensures if Admitted(opts) && Known(nodes, opts.selected) && env.begun
      then CommandRan(nodes, selected, Tidy(opts), env, ok, trace) else !ok && trace == []
    ensures ok ==> env.report && Applied(nodes, selected, Tidy(opts), env, trace)
    ensures Favourable(nodes, selected, opts, env) ==> ok
  {
    trace := [];
    selected := Narrowed(nodes, opts.selected);
    var admitted := Admit(opts);
    if !admitted {
      return false, trace, selected;
    }
    var picked := SelectConfigNodes(nodes, opts.selected);
    if picked.Err? || !env.begun {
      return false, trace, selected;
    }
    var activated: Option<Activated>;
    activated, trace := ActivateSafely(picked.value, opts.plan, env);
    if activated.None? || opts.plan {
      NoStages(nodes, selected, opts, env, activated.Some?, trace);
      return activated.Some? && env.report, trace, selected;
    }
    var waits := activated.value.staged != {} || activated.value.preBootstrap;
    var sent;
    ghost var parts;
    ok, sent, parts := RollOutAll(nodes, Tidy(opts), env, Components(picked.value, opts, env), waits);
    PartsSafe(selected, env, trace, parts);
    AfterStages(nodes, selected, opts, env, trace, ok, parts);
    assert waits ==> trace + sent == trace;
    trace := trace + sent;
    ok := ok && env.report;
  }

  ghost predicate Known(nodes: seq<Entry>, names: seq<string>) {
    forall n | n in names :: exists e :: e in nodes && e.name == n
  }

  /** How the command goes once it began: activation, and if that went through and this is no plan, the
      components in stages. */
  ghost predicate CommandRan(
      nodes: seq<Entry>, selected: seq<Entry>, opts: Options, env: Env, ok: bool, trace: seq<Event>)
  {
    exists went, first ::
      && ActivationRan(selected, opts.plan, env, went, first)
      && if !went || opts.plan then trace == first && (ok <==> went && env.report)
         else exists all, parts ::
           && StagesRan(nodes, opts, env, Components(selected, opts, env), MustWait(selected, env), all, parts)
           && trace == first + Concat(parts) && (ok <==> all && env.report)
  }

  lemma NoStages(
      nodes: seq<Entry>, selected: seq<Entry>, opts: Options, env: Env, went: bool, trace: seq<Event>)
    requires ActivationRan(selected, opts.plan, env, went, trace) && (!went || opts.plan)
    ensures CommandRan(nodes, selected, Tidy(opts), env, went && env.report, trace)
  {
  }

  lemma AfterStages(
      nodes: seq<Entry>, selected: seq<Entry>, opts: Options, env: Env, first: seq<Event>, all: bool,
      parts: seq<seq<Event>>)
    requires ActivationRan(selected, opts.plan, env, true, first) && !opts.plan
    requires StagesRan(
      nodes, Tidy(opts), env, Components(selected, opts, env), MustWait(selected, env), all, parts)
    ensures CommandRan(nodes, selected, Tidy(opts), env, all && env.report, first + Concat(parts))
  {
    assert Components(selected, Tidy(opts), env) == Components(selected, opts, env);
  }

  /** Whole stages, followed by at most one that fails and is the last. */
  ghost predicate StagesRan(
      nodes: seq<Entry>, opts: Options, env: Env, due: set<Component>, waits: bool, all: bool, parts: seq<seq<Event>>)
  {
    && |parts| <= 3 && (if all then |parts| == 3 else |parts| > 0)
    && forall i | 0 <= i < |parts| ::
         StageRan(STAGES[i], nodes, opts, env, due, waits, all || i < |parts| - 1, parts[i])
  }

  /** One stage: nothing if it is not due; only a note if it must wait; else started, rolled out and completed. */
  ghost predicate StageRan(
      c: Component, nodes: seq<Entry>, opts: Options, env: Env, due: set<Component>, waits: bool,
      ok: bool, sent: seq<Event>)
  {
    if c !in due then ok && sent == []
    else if waits then sent == [] && (ok <==> env.skipped(c))
    else if !env.started(c) then !ok && sent == []
    else exists rolled :: RollRan(c, nodes, opts, env, rolled, sent) && (ok <==> rolled && env.completed(c))
  }

  ghost predicate RollRan(c: Component, nodes: seq<Entry>, opts: Options, env: Env, ok: bool, sent: seq<Event>) {
    if !Requestable(nodes, opts.external, c, opts.coordinator) then !ok && sent == []
    else exists coordinator, order ::
      && Ordered(nodes, opts.external, c, opts.coordinator, opts.selected, coordinator, order)
      && ComponentRan(c, order, env, ok, sent)
  }

  /** Requests of a component are sent only after every earlier due one was rolled out whole and completed. */
  lemma EarlierStagesWhole(
      nodes: seq<Entry>, opts: Options, env: Env, due: set<Component>, all: bool, parts: seq<seq<Event>>,
      i: nat, j: nat)
    requires StagesRan(nodes, opts, env, due, false, all, parts) && j < i < |parts| && STAGES[j] in due
    ensures env.started(STAGES[j]) && env.completed(STAGES[j]) && RolledWhole(STAGES[j], nodes, opts, env, parts[j])
  {
    var c := STAGES[j];
    assert StageRan(c, nodes, opts, env, due, false, true, parts[j]);
    var coordinator, order :|
      && Ordered(nodes, opts.external, c, opts.coordinator, opts.selected, coordinator, order)
      && ComponentRan(c, order, env, true, parts[j]);
    ComponentWhole(c, order, env, parts[j]);
  }

  /** A component that went through was rehearsed and applied on its whole order. */
  lemma ComponentWhole(c: Component, order: seq<Entry>, env: Env, trace: seq<Event>)
    requires ComponentRan(c, order, env, true, trace)
    ensures Goes(c, order, env) && trace == DryRuns(c, order) + Applies(c, order)
  {
    var rehearsed, first :| DryRunsRan(c, order, env, rehearsed, first) && rehearsed
      && exists k: nat, second :: AppliesRan(c, order, env, k, second) && trace == first + second && k == |order|;
    var k: nat, second :| AppliesRan(c, order, env, k, second) && trace == first + second && k == |order|;
    assert order[..|order|] == order;
    forall n | n in order ensures env.component(c, n.name).dryRun && Succeeds(env.component(c, n.name)) {
      var i :| 0 <= i < |order| && order[i] == n;
    }
  }

  /** What a successful command did: all validations, without --plan all submissions, and every due
      component on all its nodes, one after the other, unless they must wait. */
  ghost predicate Applied(nodes: seq<Entry>, selected: seq<Entry>, opts: Options, env: Env, trace: seq<Event>) {
    && Ready(selected, env)
    && (opts.plan ==> trace == Validates(selected))
    && (!opts.plan ==> SubmissionsWork(selected, env) && exists parts ::
          && trace == Validates(selected) + Submits(Changed(selected, env)) + Concat(parts)
          && Staged(nodes, opts, env, Components(selected, opts, env), MustWait(selected, env), parts))
  }

  ghost function Concat(parts: seq<seq<Event>>): seq<Event> {
    if parts == [] then [] else Concat(parts[..|parts| - 1]) + parts[|parts| - 1]
  }

  /** Nothing stands in the way of the command. */
  ghost predicate Favourable(nodes: seq<Entry>, selected: seq<Entry>, opts: Options, env: Env) {
    && Admitted(opts) && env.begun && env.report
    && Known(nodes, opts.selected)
    && Ready(selected, env)
    && (opts.plan || SubmissionsWork(selected, env))
    && (opts.plan || forall c | c in Components(selected, opts, env) ::
          Unhindered(c, nodes, Tidy(opts), env, MustWait(selected, env)))
  }

  const STAGES: seq<Component> := [ControlPlane, Kubelet, KubeProxy]

  ghost predicate Unhindered(c: Component, nodes: seq<Entry>, opts: Options, env: Env, waits: bool) {
    if waits then env.skipped(c) else env.started(c) && env.completed(c) && Rollable(c, nodes, opts, env)
  }

  /** The component can be rolled out and goes through on its nodes. */
  ghost predicate Rollable(c: Component, nodes: seq<Entry>, opts: Options, env: Env) {
    && Requestable(nodes, opts.external, c, opts.coordinator)
    && forall coordinator, order |
         Ordered(nodes, opts.external, c, opts.coordinator, opts.selected, coordinator, order) :: Goes(c, order, env)
  }

  /** One component after the other: each due one was rehearsed and applied on its whole order. */
  ghost predicate Staged(
      nodes: seq<Entry>, opts: Options, env: Env, due: set<Component>, waits: bool, parts: seq<seq<Event>>)
  {
    |parts| == 3 && forall i | 0 <= i < 3 :: Stage(STAGES[i], nodes, opts, env, due, waits, parts[i])
  }

  ghost predicate Stage(
      c: Component, nodes: seq<Entry>, opts: Options, env: Env, due: set<Component>, waits: bool, sent: seq<Event>)
  {
    if c !in due then sent == []
    else if waits then sent == [] && env.skipped(c)
    else env.started(c) && env.completed(c) && RolledWhole(c, nodes, opts, env, sent)
  }

  ghost predicate RolledWhole(c: Component, nodes: seq<Entry>, opts: Options, env: Env, sent: seq<Event>) {
    exists coordinator, order ::
      && Ordered(nodes, opts.external, c, opts.coordinator, opts.selected, coordinator, order)
      && Goes(c, order, env) && sent == DryRuns(c, order) + Applies(c, order)
  }

  /** A reboot is pending or Kubernetes is not configured everywhere. */
  ghost predicate MustWait(selected: seq<Entry>, env: Env) {
    (exists n :: n in selected && env.validation(n.name).mode == NextBoot) || !AllConfigured(selected, env)
  }

  method ActivateSafely(selected: seq<Entry>, plan: bool, env: Env) returns (r: Option<Activated>, trace: seq<Event>)
    ensures ValidatedFirst(selected, plan, env, trace) && RehearsedFirst(trace) && Only(trace, {})
    ensures plan ==> forall e | e in trace :: e.Validate?
    ensures r.Some? ==> Ready(selected, env) && forall n | n in selected :: Validate(n.name) in trace
    ensures r.Some? ==> (MustWait(selected, env) <==> r.value.staged != {} || r.value.preBootstrap)
    ensures r.Some? <==> Ready(selected, env) && (plan || SubmissionsWork(selected, env))
    ensures r.Some? ==> trace == Validates(selected) + (if plan then [] else Submits(Changed(selected, env)))
    ensures ActivationRan(selected, plan, env, r.Some?, trace)
  {
    r, trace := Activate(selected, plan, env);
    ghost var v, s := ActivationPhases(selected, plan, env, r.Some?, trace);
    ActivationSafe(selected, plan, env, trace, v, s);
    if r.Some? {
      AllValidated(selected, trace);
      WaitsFor(selected, env, r.value);
    }
    assert trace + [] == trace;
  }

  lemma WaitsFor(selected: seq<Entry>, env: Env, a: Activated)
    requires Uniform(selected, env)
    requires a.preBootstrap <==> selected != [] && forall n | n in selected :: !env.validation(n.name).configured
    requires a.staged == set n | n in selected && env.validation(n.name).mode == NextBoot :: n.name
    ensures MustWait(selected, env) <==> a.staged != {} || a.preBootstrap
  {
    assert selected != [] ==> selected[0] in selected;
    assert forall n | n in selected && env.validation(n.name).mode == NextBoot :: n.name in a.staged;
  }

  ghost predicate AllConfigured(selected: seq<Entry>, env: Env) {
    forall n | n in selected :: env.validation(n.name).configured
  }

  function Components(selected: seq<Entry>, opts: Options, env: Env): set<Component> {
    if opts.external then {Kubelet} else set n, c | n in selected && c in env.validation(n.name).components :: c
  }

  lemma AllValidated(selected: seq<Entry>, trace: seq<Event>)
    requires Validates(selected) <= trace
    ensures forall n | n in selected :: Validate(n.name) in trace
  {
    forall n | n in selected ensures Validate(n.name) in trace {
      var k :| 0 <= k < |selected| && selected[k] == n;
      assert trace[k] == Validates(selected)[k];
    }
  }

  /** Each part holds the requests of one component. */
  ghost predicate InStages(parts: seq<seq<Event>>) {
    |parts| <= 3 && forall i | 0 <= i < |parts| :: RehearsedFirst(parts[i]) && Only(parts[i], {STAGES[i]})
  }

  ghost function FirstStages(n: nat): set<Component> {
    if n == 0 then {} else if n == 1 then {ControlPlane} else if n == 2 then {ControlPlane, Kubelet}
    else {ControlPlane, Kubelet, KubeProxy}
  }

  lemma NextStage(n: nat)
    requires n < 3
    ensures STAGES[n] !in FirstStages(n) && FirstStages(n) + {STAGES[n]} == FirstStages(n + 1)
  {
  }

  /** The trace so far is safe and more may follow. */
  ghost predicate SafeSoFar(selected: seq<Entry>, env: Env, trace: seq<Event>, cs: set<Component>) {
    && ValidatedFirst(selected, false, env, trace) && RehearsedFirst(trace) && Only(trace, cs)
    && Ready(selected, env) && forall n | n in selected :: Validate(n.name) in trace
  }

  lemma SafeThen(selected: seq<Entry>, env: Env, trace: seq<Event>, more: seq<Event>, cs: set<Component>, c: Component)
    requires SafeSoFar(selected, env, trace, cs) && RehearsedFirst(more) && Only(more, {c}) && c !in cs
    ensures SafeSoFar(selected, env, trace + more, cs + {c})
  {
    Appended(selected, false, env, trace, more, cs, c);
  }

  /** Rolling components out after a safe activation keeps the whole command safe. */
  lemma {:induction false} PartsSafe(selected: seq<Entry>, env: Env, before: seq<Event>, parts: seq<seq<Event>>)
    requires SafeSoFar(selected, env, before, {}) && InStages(parts)
    ensures SafeSoFar(selected, env, before + Concat(parts), FirstStages(|parts|))
  {
    if parts == [] {
      assert before + [] == before;
    } else {
      var n := |parts| - 1;
      var sent := before + Concat(parts[..n]);
      assert InStages(parts[..n]);
      PartsSafe(selected, env, before, parts[..n]);
      NextStage(n);
      SafeThen(selected, env, sent, parts[n], FirstStages(n), STAGES[n]);
      assert before + Concat(parts) == sent + parts[n] by {
        assert before + (Concat(parts[..n]) + parts[n]) == sent + parts[n];
      }
    }
  }

  /** The first `i` stages went through. */
  ghost predicate StagesTo(
      nodes: seq<Entry>, opts: Options, env: Env, due: set<Component>, waits: bool, i: nat,
      sent: seq<Event>, parts: seq<seq<Event>>)
  {
    && i <= 3 && |parts| == i && sent == Concat(parts) && InStages(parts) && (waits ==> sent == [])
    && forall j | 0 <= j < i ::
         && Stage(STAGES[j], nodes, opts, env, due, waits, parts[j])
         && StageRan(STAGES[j], nodes, opts, env, due, waits, true, parts[j])
  }

  lemma StageGoes(
      nodes: seq<Entry>, opts: Options, env: Env, due: set<Component>, waits: bool, i: nat,
      sent: seq<Event>, parts: seq<seq<Event>>, more: seq<Event>)
    requires i < 3 && StagesTo(nodes, opts, env, due, waits, i, sent, parts)
    requires RehearsedFirst(more) && Only(more, {STAGES[i]}) && (waits ==> more == [])
    requires Stage(STAGES[i], nodes, opts, env, due, waits, more)
    requires StageRan(STAGES[i], nodes, opts, env, due, waits, true, more)
    ensures StagesTo(nodes, opts, env, due, waits, i + 1, sent + more, parts + [more])
  {
    AddPart(parts, more);
  }

  lemma StageFails(
      nodes: seq<Entry>, opts: Options, env: Env, due: set<Component>, waits: bool, i: nat,
      sent: seq<Event>, parts: seq<seq<Event>>, more: seq<Event>)
    requires i < 3 && StagesTo(nodes, opts, env, due, waits, i, sent, parts)
    requires RehearsedFirst(more) && Only(more, {STAGES[i]})
    requires StageRan(STAGES[i], nodes, opts, env, due, waits, false, more)
    ensures StagesRan(nodes, opts, env, due, waits, false, parts + [more])
    ensures InStages(parts + [more]) && sent + more == Concat(parts + [more])
  {
    AddPart(parts, more);
  }

  method RollOutAll(nodes: seq<Entry>, opts: Options, env: Env, components: set<Component>, waits: bool)
    returns (ok: bool, sent: seq<Event>, ghost parts: seq<seq<Event>>)
    ensures sent == Concat(parts) && InStages(parts) && (waits ==> sent == [])
    ensures ok ==> Staged(nodes, opts, env, components, waits, parts)
    ensures StagesRan(nodes, opts, env, components, waits, ok, parts)
    ensures (forall c | c in components :: Unhindered(c, nodes, opts, env, waits)) ==> ok
  {
    sent, parts := [], [];
    for i := 0 to 3
      invariant StagesTo(nodes, opts, env, components, waits, i, sent, parts)
    {
      var more: seq<Event>;
      ok, more := RollOutDue(STAGES[i], nodes, opts, env, components, waits);
      if !ok {
        StageFails(nodes, opts, env, components, waits, i, sent, parts, more);
        sent, parts := sent + more, parts + [more];
        return;
      }
      StageGoes(nodes, opts, env, components, waits, i, sent, parts, more);
      sent, parts := sent + more, parts + [more];
    }
    ok := true;
  }

  lemma AddPart(parts: seq<seq<Event>>, more: seq<Event>)
    requires InStages(parts) && |parts| < 3 && RehearsedFirst(more) && Only(more, {STAGES[|parts|]})
    ensures InStages(parts + [more]) && Concat(parts + [more]) == Concat(parts) + more
  {
    assert (parts + [more])[..|parts|] == parts;
  }

  /** Skip what is not due or must wait. */
  method RollOutDue(c: Component, nodes: seq<Entry>, opts: Options, env: Env, due: set<Component>, waits: bool)
    returns (ok: bool, sent: seq<Event>)
    ensures RehearsedFirst(sent) && Only(sent, {c}) && (waits ==> sent == [])
    ensures ok ==> Stage(c, nodes, opts, env, due, waits, sent)
    ensures StageRan(c, nodes, opts, env, due, waits, ok, sent)
    ensures c !in due || Unhindered(c, nodes, opts, env, waits) ==> ok
  {
    sent := [];
    if c !in due {
      return true, sent;
    }
    if waits {
      return env.skipped(c), sent;
    }
    if !env.started(c) {
      return false, sent;
    }
    ok, sent := RollOut(c, nodes, opts, env);
    ok := ok && env.completed(c);
  }

  /** The component's requests follow its order. */
  ghost predicate Follows(c: Component, nodes: seq<Entry>, opts: Options, env: Env, sent: seq<Event>) {
    exists coordinator, order, d: nat, a: nat ::
      && Ordered(nodes, opts.external, c, opts.coordinator, opts.selected, coordinator, order)
      && RolledOut(c, order, env, sent, d, a)
  }

  method RollOut(c: Component, nodes: seq<Entry>, opts: Options, env: Env) returns (ok: bool, sent: seq<Event>)
    ensures RehearsedFirst(sent) && Only(sent, {c})
    ensures sent == [] || Follows(c, nodes, opts, env, sent)
    ensures ok ==> RolledWhole(c, nodes, opts, env, sent)
    ensures Rollable(c, nodes, opts, env) ==> ok
    ensures RollRan(c, nodes, opts, env, ok, sent)
  {
    sent := [];
    var chosen := ComponentNodes(nodes, opts.external, c, opts.coordinator, opts.selected);
    if chosen.Err? {
      return false, sent;
    }
    var done;
    ok, sent, done := RunComponent(c, chosen.value.1, env);
    ghost var d, a := ComponentPhases(c, chosen.value.1, env, ok, sent);
    ComponentSafe(c, chosen.value.1, env, sent, d, a);
  }
}
