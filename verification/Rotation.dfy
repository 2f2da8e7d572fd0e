/** Rotation of a cluster's management authority: a workstation loop over SSH and the node-local
    switch-then-restart. Losing the workstation, a connection or a node at any point is the same
    as a failure reply at the next step, so every prefix of a run is some run of these methods.
    Before every step any node may drift, any number of times. */
module Rotation {
  import opened Results
  import opened RotationWorld

  datatype Switch = SwitchFails | SwitchUnsynced | Switches

  /** How one node-local invocation goes: `replies` is false when SSH loses its result. */
  datatype NodeEnv = NodeEnv(
    admissible: bool, lockFree: bool, switch: Switch, restart: Restart, active: bool, replies: bool)

  datatype Publish = PublishFails | PublishedUnconfirmed | Published

  /** What somebody else writes into the config during the run: before it is compared with what
      the run read at its start, or between that comparison and the rename. */
  datatype Edits = Edits(before: Option<string>, between: Option<string>, renamed: bool)

  /** What a run meets; `drift(n, k)` is what all nodes do before step `k` at node `n`. */
  datatype Env = Env(
    usable: bool, generated: Authority, publish: Publish, addressed: bool,
    drift: (string, nat) -> seq<(string, Drift)>, dryRun: string -> NodeEnv, rotate: string -> NodeEnv,
    reach: (string, nat) -> bool, edits: Edits)

  datatype Outcome =
    | Unusable | NotAccepted | AlreadyUses | NoReplacement | SameAuthority | Unaddressed
    | PreflightFailed | RotationFailed | VerificationFailed | ConfigChanged | Rotated

  /** What the operator does to the nodes and is told: dry runs, switch requests, and connections with the
      client of an authority. */
  datatype Event =
    | DryRan(node: string, accepted: bool)
    | SwitchAsked(node: string, answered: bool)
    | Checked(node: string, step: nat, authority: Authority, accepted: bool)

  // ---------------------------------------------------------------------------------------
  // The node

  /** The node takes the request for valid. */
  ghost predicate Admits(a: Agent, expected: Authority, next: Authority, e: NodeEnv) {
    e.admissible && expected != next && a.disk in {expected, next}
  }

  ghost predicate Locks(a: Agent, e: NodeEnv) {
    e.lockFree && !a.busy
  }

  /** The files on disk are the replacement's and synced, now or from an earlier request. */
  ghost predicate OnReplacement(a: Agent, next: Authority, e: NodeEnv) {
    a.disk == next || e.switch == Switches
  }

  /** A valid request is carried out to its end. */
  ghost predicate Completes(a: Agent, next: Authority, e: NodeEnv) {
    Locks(a, e) && OnReplacement(a, next, e) && e.restart == Fresh && e.active
  }

  ghost predicate DryRunOk(a: Agent, expected: Authority, next: Authority, e: NodeEnv) {
    Admits(a, expected, next, e) && e.replies
  }

  ghost predicate RotatesOk(a: Agent, expected: Authority, next: Authority, e: NodeEnv) {
    Admits(a, expected, next, e) && Completes(a, next, e) && e.replies
  }

  /** `katlc agent rotate-management`: validate, then under the mutation lock switch the files on
      disk, restart the agent and check it stays up. */
  method RotateOnNode(agent: Agent, expected: Authority, next: Authority, dryRun: bool, env: NodeEnv)
    returns (after: Agent, ok: bool)
    ensures ok <==> if dryRun then DryRunOk(agent, expected, next, env) else RotatesOk(agent, expected, next, env)
    ensures dryRun || !Admits(agent, expected, next, env) || !Locks(agent, env) ==> after == agent
    ensures !dryRun && Admits(agent, expected, next, env) && Locks(agent, env) ==>
      && after.disk == (if agent.disk == next || env.switch != SwitchFails then next else agent.disk)
      && after.served == (
           if !OnReplacement(agent, next, env) || env.restart == Untouched then agent.served
           else if env.restart == Fresh && env.active then Some(next) else None)
      && after.busy == agent.busy
    ensures after.disk != agent.disk ==> agent.disk == expected && after.disk == next
    ensures after.served == agent.served || after.served == None || after.served == Some(after.disk)
    ensures ok && !dryRun ==> after == agent.(disk := next, served := Some(next))
  {
    after, ok := agent, false;
    if !env.admissible || expected == next {
      return;
    }
    if agent.disk != expected && agent.disk != next {
      return;
    }
    if dryRun {
      return agent, env.replies;
    }
    if !env.lockFree || agent.busy {
      return;
    }
    if agent.disk != next {
      if env.switch == SwitchFails {
        return;
      }
      after := after.(disk := next);
      if env.switch == SwitchUnsynced {
        return;
      }
    }
    match env.restart {
      case Untouched => return;
      case Down =>
        after := after.(served := None);
        return;
      case Fresh =>
        after := after.(served := Some(after.disk));
    }
    if !env.active {
      after := after.(served := None);
      return;
    }
    ok := env.replies;
  }

  // ---------------------------------------------------------------------------------------
  // The workstation

  /** A client of `a` is let in exactly by an agent that trusts `a`. */
  predicate Accepts(agent: Agent, a: Authority) {
    agent.served == Some(a)
  }

  /** Load the replacement at `output`, or create it there; an existing file is never overwritten. */
  method Replacement(w: World, output: Path, env: Env) returns (after: World, next: Option<Bundle>)
    requires WellFormed(w)
    ensures after.config == w.config && after.agents == w.agents && after.issued == w.issued
    ensures forall p | p in w.files :: p in after.files && after.files[p] == w.files[p]
    ensures forall p | p in after.files :: p in w.files || p == output
    ensures next.Some? ==> output in after.files && after.files[output] == next.value
    ensures next.Some? ==> next.value.authority == NextAuthority(w, output, env)
    ensures next.Some? <==> if output in w.files then Fits(w, w.files[output]) else env.publish == Published
    ensures output in after.files <==> output in w.files || env.publish != PublishFails
    ensures output in after.files ==> after.files[output].authority == NextAuthority(w, output, env)
    ensures output in after.files && output !in w.files ==>
      Fits(w, after.files[output]) && after.files[output].nodes == set n | n in w.config.nodes
    ensures next.Some? ==> Fits(w, next.value)
  {
    if output in w.files {
      var bundle := w.files[output];
      if bundle.cluster != w.config.cluster {
        return w, None;
      }
      for i := 0 to |w.config.nodes|
        invariant forall k | 0 <= k < i :: w.config.nodes[k] in bundle.nodes
      {
        if w.config.nodes[i] !in bundle.nodes {
          return w, None;
        }
      }
      return w, Some(bundle);
    }
    var bundle := Bundle(w.config.cluster, env.generated, set n | n in w.config.nodes);
    if env.publish == PublishFails {
      return w, None;
    }
    after := w.(files := w.files[output := bundle]);
    return after, if env.publish == Published then Some(bundle) else None;
  }

  ghost predicate Fits(w: World, b: Bundle) {
    b.cluster == w.config.cluster && forall n | n in w.config.nodes :: n in b.nodes
  }

  function NextAuthority(w: World, output: Path, env: Env): Authority {
    if output in w.files then w.files[output].authority else env.generated
  }

  ghost predicate HelpfulNode(e: NodeEnv) {
    e.admissible && e.lockFree && e.switch == Switches && e.restart == Fresh && e.active && e.replies
  }

  /** A run during which nothing fails up to the change of the reference. */
  ghost predicate Smooth(env: Env) {
    && env.usable && env.publish == Published && env.addressed
    && (forall n, k :: env.drift(n, k) == [])
    && (forall n :: HelpfulNode(env.dryRun(n)) && HelpfulNode(env.rotate(n)))
    && (forall n, k :: env.reach(n, k))
  }

  /** A run during which nothing fails. */
  ghost predicate Helpful(env: Env) {
    Smooth(env) && env.edits == Edits(None, None, true)
  }

  ghost predicate Idle(w: World) {
    forall n | n in w.agents :: !w.agents[n].busy
  }

  /** Every disk holds the configured authority or `next`. */
  ghost predicate Near(w: World, next: Authority)
    requires WellFormed(w)
  {
    forall n | n in w.agents :: w.agents[n].disk == Current(w) || w.agents[n].disk == next
  }

  /** What a smooth run needs to reach every node. */
  ghost predicate Ready(w: World, next: Authority, env: Env)
    requires WellFormed(w)
  {
    Smooth(env) && Idle(w) && Near(w, next) && next != Current(w)
  }

  /** A run during which no node drifts, over a config that names no node twice. */
  ghost predicate Calm(w: World, env: Env) {
    && (forall n, k :: env.drift(n, k) == [])
    && (forall i, j | 0 <= i < j < |w.config.nodes| :: w.config.nodes[i] != w.config.nodes[j])
  }

  /** What the operator was told: a good answer means that the node did what it says, and in a calm run the
      answers are exactly those of the nodes as they were when the run began. */
  ghost predicate Answered(w: World, next: Authority, env: Env, trace: seq<Event>)
    requires WellFormed(w)
  {
    forall e | e in trace :: Backed(env, e) && (Calm(w, env) ==> Exact(w, next, env, e))
  }

  ghost predicate Backed(env: Env, e: Event) {
    match e
    case DryRan(n, accepted) => accepted ==> env.dryRun(n).admissible && env.dryRun(n).replies
    case SwitchAsked(n, answered) => answered ==> CarriedOut(env.rotate(n))
    case Checked(n, k, _, accepted) => accepted ==> env.reach(n, k)
  }

  ghost predicate CarriedOut(e: NodeEnv) {
    e.admissible && e.lockFree && e.restart == Fresh && e.active && e.replies
  }

  ghost predicate Exact(w: World, next: Authority, env: Env, e: Event)
    requires WellFormed(w)
  {
    e.node in w.agents &&
    match e
    case DryRan(n, accepted) => accepted <==> DryRunOk(w.agents[n], Current(w), next, env.dryRun(n))
    case SwitchAsked(n, answered) => answered <==> RotatesOk(w.agents[n], Current(w), next, env.rotate(n))
    case Checked(n, k, authority, accepted) => accepted <==> env.reach(n, k) && authority == next
  }

  /** What one node answers does not depend on the others. */
  lemma AnsweredBefore(w: World, mid: World, n: string, next: Authority, env: Env, part: seq<Event>)
    requires WellFormed(w) && WellFormed(mid) && mid.config == w.config && mid.files == w.files
    requires n in w.agents && (Calm(w, env) ==> n in mid.agents && mid.agents[n] == w.agents[n])
    requires Answered(mid, next, env, part) && forall e | e in part :: e.node == n
    ensures Answered(w, next, env, part)
  {
  }

  lemma AnsweredLater(w: World, mid: World, next: Authority, env: Env, trace: seq<Event>)
    requires WellFormed(w) && WellFormed(mid) && mid.config == w.config && mid.files == w.files
    requires Answered(mid, next, env, trace) && (Calm(w, env) ==> mid.agents == w.agents)
    ensures Answered(w, next, env, trace)
  {
  }

  /** The trace of dry runs that were all accepted. */
  ghost function Rehearsed(ns: seq<string>): (r: seq<Event>)
    ensures |r| == |ns| && forall i | 0 <= i < |ns| :: r[i] == DryRan(ns[i], true)
  {
    seq(|ns|, i requires 0 <= i < |ns| => DryRan(ns[i], true))
  }

  /** The dry runs stop at the first that is refused. */
  ghost predicate Preflighted(ns: seq<string>, ok: bool, trace: seq<Event>) {
    if ok then trace == Rehearsed(ns)
    else exists k: nat :: k < |ns| && trace == Rehearsed(ns[..k]) + [DryRan(ns[k], false)]
  }

  /** What the dry run at one node does and answers. */
  ghost predicate NodeAsked(w: World, after: World, n: string, next: Authority, env: Env, ok: bool)
    requires WellFormed(w)
  {
    && n in w.agents && Frame(w, after) && after.issued == w.issued && (Settled(w) ==> Settled(after))
    && (ok ==> after.agents[n].disk in {Current(w), next})
    && (Calm(w, env) ==> after == w) && Answered(w, next, env, [DryRan(n, ok)])
    && (Ready(w, next, env) ==> after == w && ok)
  }

  method PreflightNode(w: World, n: string, next: Authority, env: Env) returns (after: World, ok: bool)
    requires WellFormed(w) && n in w.agents
    ensures NodeAsked(w, after, n, next, env, ok)
    ensures after == Drifts(w, env.drift(n, 0)) && (ok <==> DryRunOk(after.agents[n], Current(w), next, env.dryRun(n)))
  {
    after := Drifts(w, env.drift(n, 0));
    DriftsFrame(w, env.drift(n, 0));
    if Settled(w) {
      DriftsKeep(w, env.drift(n, 0));
    }
    var same;
    same, ok := RotateOnNode(after.agents[n], Current(w), next, true, env.dryRun(n));
  }

  /** No request takes a node out of the pair of the configured authority and `next`. */
  ghost predicate PairClosed(w: World, next: Authority)
    requires WellFormed(w)
  {
    forall n | n in w.agents :: Closed(w.issued, n, {Current(w), next})
  }

  /** The preflight loop at position `i`; all nodes in front accepted. */
  ghost predicate Asking(w: World, now: World, i: nat, next: Authority, env: Env, trace: seq<Event>)
    requires WellFormed(w) && i <= |w.config.nodes|
  {
    && Frame(w, now) && now.issued == w.issued && (Settled(w) ==> Settled(now))
    && (PairClosed(w, next) ==> PairClosed(now, next) && NearUpTo(now, i, next))
    && (Calm(w, env) || Ready(w, next, env) ==> now == w)
    && trace == Rehearsed(w.config.nodes[..i]) && Answered(w, next, env, trace)
  }

  lemma AskingStep(
      w: World, now: World, after: World, i: nat, next: Authority, env: Env, trace: seq<Event>, ok: bool)
    requires WellFormed(w) && i < |w.config.nodes| && Asking(w, now, i, next, env, trace)
    requires NodeAsked(now, after, w.config.nodes[i], next, env, ok)
    ensures Frame(w, after) && after.issued == w.issued && (Settled(w) ==> Settled(after))
    ensures Calm(w, env) ==> after == w
    ensures Ready(w, next, env) ==> ok
    ensures Answered(w, next, env, trace + [DryRan(w.config.nodes[i], ok)])
    ensures ok ==> Asking(w, after, i + 1, next, env, trace + [DryRan(w.config.nodes[i], ok)])
  {
    AgentsThen(w, now, after);
    AskingAnswered(w, now, i, next, env, trace, ok);
    if ok && PairClosed(w, next) {
      NearStep(now, after, i, next);
    }
  }

  lemma AskingAnswered(w: World, now: World, i: nat, next: Authority, env: Env, trace: seq<Event>, ok: bool)
    requires WellFormed(w) && WellFormed(now) && i < |w.config.nodes| && now.config == w.config && now.files == w.files
    requires w.config.nodes[i] in now.agents && (Calm(w, env) ==> now == w)
    requires trace == Rehearsed(w.config.nodes[..i]) && Answered(w, next, env, trace)
    requires Answered(now, next, env, [DryRan(w.config.nodes[i], ok)])
    ensures Answered(w, next, env, trace + [DryRan(w.config.nodes[i], ok)])
    ensures ok ==> trace + [DryRan(w.config.nodes[i], ok)] == Rehearsed(w.config.nodes[..i + 1])
  {
    AnsweredBefore(w, now, w.config.nodes[i], next, env, [DryRan(w.config.nodes[i], ok)]);
  }

  /** Ask every node to validate the replacement. Nothing changes on any node but by an earlier
      request. */
  method Preflight(w: World, next: Authority, env: Env) returns (after: World, ok: bool, trace: seq<Event>)
    requires WellFormed(w)
    ensures Frame(w, after) && after.issued == w.issued && (Settled(w) ==> Settled(after))
    ensures Preflighted(w.config.nodes, ok, trace) && Answered(w, next, env, trace)
    ensures Calm(w, env) ==> after == w
    ensures ok && PairClosed(w, next) ==> NearUpTo(after, |w.config.nodes|, next)
    ensures Ready(w, next, env) ==> after == w && ok
  {
    after, ok, trace := w, true, [];
    AgentsSame(w, w);
    assert Rehearsed(w.config.nodes[..0]) == [];
    for i := 0 to |w.config.nodes|
      invariant ok && Asking(w, after, i, next, env, trace)
    {
      var before := after;
      after, ok := PreflightNode(before, w.config.nodes[i], next, env);
      AskingStep(w, before, after, i, next, env, trace, ok);
      trace := trace + [DryRan(w.config.nodes[i], ok)];
      if !ok {
        return;
      }
    }
    assert w.config.nodes[..|w.config.nodes|] == w.config.nodes;
  }

  ghost predicate NearUpTo(w: World, i: nat, next: Authority)
    requires WellFormed(w) && i <= |w.config.nodes|
  {
    forall k | 0 <= k < i :: w.agents[w.config.nodes[k]].disk in {Current(w), next}
  }

  lemma NearStep(w: World, after: World, i: nat, next: Authority)
    requires WellFormed(w) && i < |w.config.nodes| && NearUpTo(w, i, next) && Frame(w, after)
    requires after.issued == w.issued && PairClosed(w, next)
    requires after.agents[w.config.nodes[i]].disk in {Current(w), next}
    ensures NearUpTo(after, i + 1, next) && PairClosed(after, next)
  {
    NearKept(w, after, i, next);
  }

  lemma NearKept(w: World, after: World, i: nat, next: Authority)
    requires WellFormed(w) && i <= |w.config.nodes| && NearUpTo(w, i, next) && Frame(w, after)
    requires after.issued == w.issued && PairClosed(w, next)
    ensures NearUpTo(after, i, next)
  {
    forall k | 0 <= k < i ensures after.agents[w.config.nodes[k]].disk in {Current(w), next} {
      var n := w.config.nodes[k];
      FollowsWithin(after.issued, n, w.agents[n], after.agents[n], {Current(w), next});
    }
  }

  /** The replacement lets the operator in, the old authority does not, the replacement still does: three
      connections, before each of which the node may drift. */
  method Verify(n: string, at: (Agent, Agent, Agent), former: Authority, next: Authority, reach: nat -> bool)
    returns (ok: bool, trace: seq<Event>)
    ensures ok <==>
      && reach(0) && Accepts(at.0, next) && !(reach(1) && Accepts(at.1, former)) && reach(2) && Accepts(at.2, next)
    ensures forall e | e in trace ::
      && e.node == n && e.Checked? && e.step < 3
      && e.accepted == (reach(e.step) && Accepts([at.0, at.1, at.2][e.step], e.authority))
    ensures trace <= [
      Checked(n, 0, next, reach(0) && Accepts(at.0, next)), Checked(n, 1, former, reach(1) && Accepts(at.1, former)),
      Checked(n, 2, next, reach(2) && Accepts(at.2, next))]
    ensures ok ==> trace == Verification(n, former, next)
    ensures !ok ==> StoppedVerification(n, former, next, trace)
  {
    var let := reach(0) && Accepts(at.0, next);
    trace := [Checked(n, 0, next, let)];
    if !let {
      return false, trace;
    }
    var exposed := reach(1) && Accepts(at.1, former);
    trace := trace + [Checked(n, 1, former, exposed)];
    if exposed {
      return false, trace;
    }
    ok := reach(2) && Accepts(at.2, next);
    trace := trace + [Checked(n, 2, next, ok)];
  }

  ghost function Verification(n: string, former: Authority, next: Authority): seq<Event> {
    [Checked(n, 0, next, true), Checked(n, 1, former, false), Checked(n, 2, next, true)]
  }

  /** It stops at the first connection that goes the wrong way. */
  ghost predicate StoppedVerification(n: string, former: Authority, next: Authority, trace: seq<Event>) {
    || trace == [Checked(n, 0, next, false)]
    || trace == [Checked(n, 0, next, true), Checked(n, 1, former, true)]
    || trace == [Checked(n, 0, next, true), Checked(n, 1, former, false), Checked(n, 2, next, false)]
  }

  /** `next` may be sent to the node at position `i`. */
  ghost predicate Sendable(w: World, i: nat, next: Authority) {
    && Settled(w) && i <= |w.config.nodes| && OnDisk(w, i, next)
    && next != Current(w) && Saved(w, next) && Unexpected(w.issued, next)
  }

  function SwitchRequest(w: World, i: nat, next: Authority): Request
    requires WellFormed(w) && i < |w.config.nodes|
  {
    Request(w.config.nodes[i], Current(w), next)
  }

  function Asked(w: World, i: nat, next: Authority): World
    requires WellFormed(w) && i < |w.config.nodes|
  {
    w.(issued := w.issued + {SwitchRequest(w, i, next)})
  }

  /** Recording the request keeps everything: its node is led by those already switched. */
  lemma AskKeeps(w: World, i: nat, next: Authority)
    requires Sendable(w, i, next) && i < |w.config.nodes|
    ensures Sendable(Asked(w, i, next), i, next)
  {
    var v := Asked(w, i, next);
    assert OnDisk(v, i, next) && Saved(v, next);
    forall n, a | Standing(w, n, a) && a != Current(w) ensures Standing(v, n, a) {
      var j :| 0 <= j < |w.config.nodes| && w.config.nodes[j] == n && OnDisk(w, j, a);
      assert OnDisk(v, j, a);
      assert Saved(w, a) ==> Saved(v, a);
    }
    assert Led(v, w.config.nodes[i], next);
  }

  lemma DriftsSendable(w: World, steps: seq<(string, Drift)>, i: nat, next: Authority)
    requires Sendable(w, i, next)
    ensures Sendable(Drifts(w, steps), i, next)
  {
    var v := Drifts(w, steps);
    DriftsKeep(w, steps);
    DriftsFrame(w, steps);
    forall k | 0 <= k < i ensures v.agents[w.config.nodes[k]].disk == next {
      var n := w.config.nodes[k];
      Stays(w.issued, n, w.agents[n], v.agents[n]);
    }
    assert Saved(w, next) ==> Saved(v, next);
  }

  /** From `w` to `after` agents follow requests, the new ones lead to `next`, and `next` stays sendable. */
  ghost predicate Advances(w: World, after: World, i: nat, next: Authority)
    requires WellFormed(w)
  {
    Frame(w, after) && Sends(w, after, next) && (Sendable(w, i, next) ==> Sendable(after, i, next))
  }

  lemma AdvancesThen(w: World, mid: World, after: World, i: nat, next: Authority)
    requires WellFormed(w) && Advances(w, mid, i, next) && Advances(mid, after, i, next)
    ensures Advances(w, after, i, next)
  {
    AgentsThen(w, mid, after);
  }

  method DriftAll(w: World, steps: seq<(string, Drift)>, ghost i: nat, ghost next: Authority) returns (after: World)
    requires WellFormed(w)
    ensures Advances(w, after, i, next) && after.issued == w.issued
    ensures steps == [] ==> after == w
  {
    after := Drifts(w, steps);
    DriftsFrame(w, steps);
    if Sendable(w, i, next) {
      DriftsSendable(w, steps, i, next);
    }
  }

  /** The world with `next` switched on at one node. */
  ghost function Switched(w: World, n: string, next: Authority): World
    requires n in w.agents
  {
    w.(agents := w.agents[n := w.agents[n].(disk := next, served := Some(next))])
  }

  /** What the node does with the request. */
  method Deliver(w: World, i: nat, next: Authority, env: Env) returns (after: World, ok: bool)
    requires WellFormed(w) && i < |w.config.nodes| && SwitchRequest(w, i, next) in w.issued
    ensures Advances(w, after, i, next) && after.issued == w.issued
    ensures ok <==> RotatesOk(w.agents[w.config.nodes[i]], Current(w), next, env.rotate(w.config.nodes[i]))
    ensures ok ==> after == Switched(w, w.config.nodes[i], next)
    ensures OnlyNode(w, after, w.config.nodes[i])
    ensures Ready(w, next, env) ==> ok
  {
    var n := w.config.nodes[i];
    var rotated;
    rotated, ok := RotateOnNode(w.agents[n], Current(w), next, false, env.rotate(n));
    after := w.(agents := w.agents[n := rotated]);
    DeliverAdvances(w, i, next, rotated);
  }

  lemma DeliverAdvances(w: World, i: nat, next: Authority, b: Agent)
    requires WellFormed(w) && i < |w.config.nodes| && SwitchRequest(w, i, next) in w.issued
    requires var a := w.agents[w.config.nodes[i]];
      && (b.disk == a.disk || (a.disk == Current(w) && b.disk == next)) && b.busy == a.busy
      && (b.served == None || b.served == a.served || b.served == Some(b.disk))
    ensures Advances(w, w.(agents := w.agents[w.config.nodes[i] := b]), i, next)
  {
    DeliverFollows(w, i, next, b);
    if Sendable(w, i, next) {
      DeliverKeeps(w, i, next, b);
    }
  }

  lemma DeliverFollows(w: World, i: nat, next: Authority, b: Agent)
    requires WellFormed(w) && i < |w.config.nodes| && SwitchRequest(w, i, next) in w.issued
    requires var a := w.agents[w.config.nodes[i]];
      && (b.disk == a.disk || (a.disk == Current(w) && b.disk == next)) && b.busy == a.busy
      && (b.served == None || b.served == a.served || b.served == Some(b.disk))
    ensures AgentsFollow(w, w.(agents := w.agents[w.config.nodes[i] := b]))
  {
    var n := w.config.nodes[i];
    MovedNot(w.issued, n, w.agents[n].disk);
    MovedOnce(w.issued, SwitchRequest(w, i, next));
    AgentsOne(w, n, b);
  }

  lemma DeliverKeeps(w: World, i: nat, next: Authority, b: Agent)
    requires Sendable(w, i, next) && i < |w.config.nodes| && SwitchRequest(w, i, next) in w.issued
    requires var a := w.agents[w.config.nodes[i]];
      && (b.disk == a.disk || (a.disk == Current(w) && b.disk == next))
      && (b.served == None || b.served == a.served || b.served == Some(b.disk))
    ensures Sendable(w.(agents := w.agents[w.config.nodes[i] := b]), i, next)
  {
    var n := w.config.nodes[i];
    SetAgent(w, n, b);
    var v := w.(agents := w.agents[n := b]);
    assert Saved(w, next) ==> Saved(v, next);
    assert OnDisk(v, i, next);
  }

  ghost predicate OnlyNode(w: World, after: World, n: string) {
    after.agents.Keys == w.agents.Keys && forall m | m in w.agents && m != n :: after.agents[m] == w.agents[m]
  }

  /** What asking one node to switch does and answers. */
  ghost predicate NodeSwitched(w: World, after: World, i: nat, next: Authority, env: Env, ok: bool)
    requires WellFormed(w) && i < |w.config.nodes|
  {
    var n := w.config.nodes[i];
    && Advances(w, after, i, next) && SwitchRequest(w, i, next) in after.issued
    && (ok ==> after.agents[n].disk == next)
    && Answered(w, next, env, [SwitchAsked(n, ok)])
    && (Calm(w, env) ==> OnlyNode(w, after, n) && (ok ==> after.agents == Switched(w, n, next).agents))
    && (Ready(w, next, env) ==> ok && after.agents == Switched(w, n, next).agents)
  }

  /** Send one node the switch request and take in what it did. */
  method SwitchNode(w: World, i: nat, next: Authority, env: Env) returns (after: World, ok: bool)
    requires WellFormed(w) && i < |w.config.nodes| && next != Current(w)
    ensures NodeSwitched(w, after, i, next, env, ok)
  {
    var drifted := DriftAll(w, env.drift(w.config.nodes[i], 1), i, next);
    var asked := Asked(drifted, i, next);
    AskAdvances(w, drifted, asked, i, next);
    after, ok := Deliver(asked, i, next, env);
    AdvancesThen(w, asked, after, i, next);
  }

  lemma AskAdvances(w: World, drifted: World, asked: World, i: nat, next: Authority)
    requires WellFormed(w) && i < |w.config.nodes| && next != Current(w)
    requires Advances(w, drifted, i, next) && asked == Asked(drifted, i, next)
    ensures Advances(w, asked, i, next)
  {
    AgentsSame(drifted, asked);
    if Sendable(drifted, i, next) {
      AskKeeps(drifted, i, next);
    }
    AdvancesThen(w, drifted, asked, i, next);
  }

  /** The node was on `next`, and only a request that expects `next` can have taken it away. */
  ghost predicate Stayed(w: World, n: string, next: Authority) {
    && n in w.agents
    && ((w.agents[n].disk == next && w.agents[n].served in {None, Some(next)})
        || exists r :: r in w.issued && r.node == n && r.expected == next)
  }

  lemma StayedKept(w: World, after: World, n: string, next: Authority)
    requires Stayed(w, n, next) && AgentsFollow(w, after)
    ensures Stayed(after, n, next)
  {
    if forall r | r in after.issued && r.node == n :: r.expected != next {
      FollowsWithin(after.issued, n, w.agents[n], after.agents[n], {next});
    }
  }

  /** What the operator sees of a node that is switched and verified. */
  ghost function FullPart(n: string, former: Authority, next: Authority): seq<Event> {
    [SwitchAsked(n, true)] + Verification(n, former, next)
  }

  /** What the operator sees of one node in the loop, and how the loop goes on. */
  ghost predicate NodePart(n: string, former: Authority, next: Authority, outcome: Option<Outcome>, part: seq<Event>) {
    match outcome
    case None => part == FullPart(n, former, next)
    case Some(RotationFailed) => part == [SwitchAsked(n, false)]
    case Some(VerificationFailed) =>
      part != [] && part[0] == SwitchAsked(n, true) && StoppedVerification(n, former, next, part[1..])
    case _ => false
  }

  /** What switching and verifying one node does and answers. */
  ghost predicate NodeRotated(
      w: World, after: World, i: nat, next: Authority, env: Env, outcome: Option<Outcome>, part: seq<Event>)
    requires WellFormed(w) && i < |w.config.nodes|
  {
    var n := w.config.nodes[i];
    && Advances(w, after, i, next) && SwitchRequest(w, i, next) in after.issued
    && NodePart(n, Current(w), next, outcome, part) && Answered(w, next, env, part)
    && (forall e | e in part :: e.node == n)
    && (outcome.None? ==> Stayed(after, n, next)) && (Calm(w, env) ==> OnlyNode(w, after, n))
    && (Ready(w, next, env) ==> outcome.None? && after.agents == Switched(w, n, next).agents)
  }

  /** Switch and verify one node. */
  method RotateNode(w: World, i: nat, next: Authority, env: Env)
    returns (after: World, outcome: Option<Outcome>, part: seq<Event>)
    requires WellFormed(w) && i < |w.config.nodes| && next != Current(w)
    ensures NodeRotated(w, after, i, next, env, outcome, part)
  {
    var n := w.config.nodes[i];
    var switched, ok := SwitchNode(w, i, next, env);
    part := [SwitchAsked(n, ok)];
    if !ok {
      return switched, Some(RotationFailed), part;
    }
    var checks;
    after, ok, checks := VerifyNode(switched, i, next, env);
    RotatedAfter(w, switched, after, i, next, env, ok, checks);
    part := part + checks;
    outcome := if ok then None else Some(VerificationFailed);
  }

  lemma RotatedAfter(
      w: World, switched: World, after: World, i: nat, next: Authority, env: Env, ok: bool, checks: seq<Event>)
    requires WellFormed(w) && i < |w.config.nodes| && NodeSwitched(w, switched, i, next, env, true)
    requires NodeVerified(switched, after, i, next, env, ok, checks)
    ensures NodeRotated(
      w, after, i, next, env, if ok then None else Some(VerificationFailed),
      [SwitchAsked(w.config.nodes[i], true)] + checks)
  {
    AdvancesThen(w, switched, after, i, next);
    var part := [SwitchAsked(w.config.nodes[i], true)] + checks;
    assert part[1..] == checks;
    assert Answered(w, next, env, part) by {
      forall e | e in checks ensures Backed(env, e) && (Calm(w, env) ==> Exact(w, next, env, e)) {
      }
    }
  }

  /** What the three connections to one switched node do and answer. */
  ghost predicate NodeVerified(
      w: World, after: World, i: nat, next: Authority, env: Env, ok: bool, checks: seq<Event>)
    requires WellFormed(w) && i < |w.config.nodes|
  {
    var n := w.config.nodes[i];
    && Advances(w, after, i, next) && after.issued == w.issued
    && (if ok then checks == Verification(n, Current(w), next) else StoppedVerification(n, Current(w), next, checks))
    && (forall e | e in checks :: e.node == n && e.Checked? && Backed(env, e))
    && (ok ==> Stayed(after, n, next))
    && (Calm(w, env) ==> after == w)
    && (Calm(w, env) && w.agents[n].served == Some(next) ==>
          forall e | e in checks :: e.accepted <==> env.reach(e.node, e.step) && e.authority == next)
    && (Smooth(env) ==> after == w && (w.agents[n].served == Some(next) ==> ok))
  }

  /** Connect three times to a node that was switched. */
  method VerifyNode(w: World, i: nat, next: Authority, env: Env) returns (after: World, ok: bool, checks: seq<Event>)
    requires WellFormed(w) && i < |w.config.nodes| && next != Current(w) && w.agents[w.config.nodes[i]].disk == next
    ensures NodeVerified(w, after, i, next, env, ok, checks)
  {
    var n := w.config.nodes[i];
    var at;
    after, at := DriftThrice(w, i, next, env);
    ok, checks := Verify(n, at, Current(w), next, (k: nat) => env.reach(n, k));
    if ok {
      VerifiedStayed(w, after, n, next);
    }
  }

  /** The node's state at each of the three connections. */
  method DriftThrice(w: World, i: nat, next: Authority, env: Env) returns (after: World, at: (Agent, Agent, Agent))
    requires WellFormed(w) && i < |w.config.nodes|
    ensures Advances(w, after, i, next) && after.issued == w.issued && at.2 == after.agents[w.config.nodes[i]]
    ensures var n := w.config.nodes[i];
      Calm(w, env) || Smooth(env) ==> after == w && at == (w.agents[n], w.agents[n], w.agents[n])
  {
    var n := w.config.nodes[i];
    var first := DriftAll(w, env.drift(n, 2), i, next);
    var second := DriftAll(first, env.drift(n, 3), i, next);
    AdvancesThen(w, first, second, i, next);
    after := DriftAll(second, env.drift(n, 4), i, next);
    AdvancesThen(w, second, after, i, next);
    at := (first.agents[n], second.agents[n], after.agents[n]);
  }

  lemma VerifiedStayed(w: World, after: World, n: string, next: Authority)
    requires AgentsFollow(w, after) && n in w.agents && w.agents[n].disk == next && Accepts(after.agents[n], next)
    ensures Stayed(after, n, next)
  {
    if forall r | r in after.issued && r.node == n :: r.expected != next {
      FollowsWithin(after.issued, n, w.agents[n], after.agents[n], {next});
    }
  }

  /** The first `i` nodes were verified on the replacement. */
  ghost predicate Verified(w: World, i: nat, next: Authority)
    requires WellFormed(w) && i <= |w.config.nodes|
  {
    forall k | 0 <= k < i :: Stayed(w, w.config.nodes[k], next)
  }

  /** The first `i` nodes were sent the replacement. */
  ghost predicate Sent(w: World, i: nat, next: Authority)
    requires WellFormed(w) && i <= |w.config.nodes|
  {
    forall k | 0 <= k < i :: SwitchRequest(w, k, next) in w.issued
  }

  /** The node loop at position `i`. */
  ghost predicate Partway(w: World, now: World, i: nat, next: Authority)
    requires WellFormed(w) && i <= |w.config.nodes|
  {
    && Frame(w, now) && Sends(w, now, next) && (Sendable(w, 0, next) ==> Sendable(now, i, next))
    && Verified(now, i, next) && Sent(now, i, next)
  }

  /** One more node is verified. */
  lemma OneMore(w: World, now: World, after: World, i: nat, next: Authority)
    requires WellFormed(w) && i < |w.config.nodes| && Partway(w, now, i, next)
    requires Advances(now, after, i, next) && Stayed(after, w.config.nodes[i], next)
    requires SwitchRequest(now, i, next) in after.issued
    ensures Partway(w, after, i + 1, next)
  {
    AgentsThen(w, now, after);
    VerifiedKept(now, after, i, next);
    SentKept(now, after, i, next);
    if Sendable(w, 0, next) {
      SendableMore(now, after, i, next);
    }
  }

  lemma SendableMore(w: World, after: World, i: nat, next: Authority)
    requires Sendable(w, i, next) && i < |w.config.nodes| && Advances(w, after, i, next)
    requires Stayed(after, w.config.nodes[i], next)
    ensures Sendable(after, i + 1, next)
  {
    assert OnDisk(after, i, next) && after.agents[after.config.nodes[i]].disk == next;
  }

  lemma VerifiedKept(w: World, after: World, i: nat, next: Authority)
    requires WellFormed(w) && i <= |w.config.nodes| && Frame(w, after) && Verified(w, i, next)
    ensures Verified(after, i, next)
  {
    forall k | 0 <= k < i ensures Stayed(after, w.config.nodes[k], next) {
      StayedKept(w, after, w.config.nodes[k], next);
    }
  }

  lemma SentKept(w: World, after: World, i: nat, next: Authority)
    requires WellFormed(w) && i <= |w.config.nodes| && Frame(w, after) && Sent(w, i, next)
    ensures Sent(after, i, next)
  {
    forall k | 0 <= k < i ensures SwitchRequest(after, k, next) in after.issued {
      assert SwitchRequest(w, k, next) in w.issued;
    }
  }

  /** A smooth run switches one node and leaves the rest as it was. */
  lemma ReadyStep(w: World, after: World, i: nat, next: Authority, env: Env)
    requires WellFormed(w) && i < |w.config.nodes| && Ready(w, next, env) && OnDisk(w, i, next) && Frame(w, after)
    requires after.agents == Switched(w, w.config.nodes[i], next).agents
    ensures Ready(after, next, env) && OnDisk(after, i + 1, next)
  {
  }

  /** What the operator sees of the first `i` nodes, all switched and verified. */
  ghost function Parts(ns: seq<string>, i: nat, former: Authority, next: Authority): seq<Event>
    requires i <= |ns|
  {
    if i == 0 then [] else Parts(ns, i - 1, former, next) + FullPart(ns[i - 1], former, next)
  }

  /** The node loop stops at the first node that fails. */
  ghost predicate Looped(
      ns: seq<string>, former: Authority, next: Authority, outcome: Option<Outcome>, trace: seq<Event>)
  {
    if outcome.None? then trace == Parts(ns, |ns|, former, next)
    else exists i: nat, part ::
      && i < |ns| && NodePart(ns[i], former, next, outcome, part) && trace == Parts(ns, i, former, next) + part
  }

  /** The node loop at position `i`, with what the operator has seen. */
  ghost predicate Looping(w: World, now: World, i: nat, next: Authority, env: Env, trace: seq<Event>)
    requires WellFormed(w) && i <= |w.config.nodes|
  {
    && Partway(w, now, i, next)
    && trace == Parts(w.config.nodes, i, Current(w), next) && Answered(w, next, env, trace)
    && (Calm(w, env) ==> forall k | i <= k < |w.config.nodes| ::
          now.agents[w.config.nodes[k]] == w.agents[w.config.nodes[k]])
    && (Ready(w, next, env) ==> Ready(now, next, env) && OnDisk(now, i, next))
  }

  lemma LoopGoesOn(
      w: World, now: World, after: World, i: nat, next: Authority, env: Env, trace: seq<Event>, part: seq<Event>)
    requires WellFormed(w) && i < |w.config.nodes| && Looping(w, now, i, next, env, trace)
    requires NodeRotated(now, after, i, next, env, None, part)
    ensures Looping(w, after, i + 1, next, env, trace + part)
  {
    LoopAnswered(w, now, i, next, env, trace, part);
    OneMore(w, now, after, i, next);
    if Ready(w, next, env) {
      ReadyStep(now, after, i, next, env);
    }
    if Calm(w, env) {
      OthersUntouched(w, now, after, i);
    }
  }

  lemma LoopStops(
      w: World, now: World, after: World, i: nat, next: Authority, env: Env,
      outcome: Outcome, trace: seq<Event>, part: seq<Event>)
    requires WellFormed(w) && i < |w.config.nodes| && Looping(w, now, i, next, env, trace)
    requires NodeRotated(now, after, i, next, env, Some(outcome), part)
    ensures RotatedAll(w, after, next, env, Some(outcome), trace + part)
  {
    LoopAnswered(w, now, i, next, env, trace, part);
    AgentsThen(w, now, after);
  }

  lemma OthersUntouched(w: World, now: World, after: World, i: nat)
    requires WellFormed(w) && i < |w.config.nodes| && now.config == w.config && now.agents.Keys == w.agents.Keys
    requires forall j | i < j < |w.config.nodes| :: w.config.nodes[i] != w.config.nodes[j]
    requires OnlyNode(now, after, w.config.nodes[i])
    requires forall k | i <= k < |w.config.nodes| :: now.agents[w.config.nodes[k]] == w.agents[w.config.nodes[k]]
    ensures forall k | i < k < |w.config.nodes| ::
      w.config.nodes[k] in after.agents && after.agents[w.config.nodes[k]] == w.agents[w.config.nodes[k]]
  {
  }

  lemma LoopAnswered(
      w: World, now: World, i: nat, next: Authority, env: Env, trace: seq<Event>, part: seq<Event>)
    requires WellFormed(w) && WellFormed(now) && i < |w.config.nodes| && now.config == w.config && now.files == w.files
    requires Calm(w, env) ==> now.agents[w.config.nodes[i]] == w.agents[w.config.nodes[i]]
    requires Answered(w, next, env, trace) && Answered(now, next, env, part)
    requires forall e | e in part :: e.node == w.config.nodes[i]
    ensures Answered(w, next, env, trace + part)
  {
    AnsweredBefore(w, now, w.config.nodes[i], next, env, part);
  }

  /** What the whole node loop does and answers. */
  ghost predicate RotatedAll(
      w: World, after: World, next: Authority, env: Env, outcome: Option<Outcome>, trace: seq<Event>)
    requires WellFormed(w)
  {
    && Advances(w, after, 0, next)
    && Looped(w.config.nodes, Current(w), next, outcome, trace) && Answered(w, next, env, trace)
    && (outcome.None? ==> Verified(after, |w.config.nodes|, next) && Sent(after, |w.config.nodes|, next))
    && (outcome.Some? ==> outcome.value in {RotationFailed, VerificationFailed})
    && (Ready(w, next, env) ==> outcome.None? && OnDisk(after, |w.config.nodes|, next))
  }

  lemma LoopStarts(w: World, next: Authority, env: Env)
    requires WellFormed(w)
    ensures Looping(w, w, 0, next, env, [])
  {
    AgentsSame(w, w);
  }

  lemma LoopEnds(w: World, after: World, next: Authority, env: Env, trace: seq<Event>)
    requires WellFormed(w) && Looping(w, after, |w.config.nodes|, next, env, trace)
    ensures RotatedAll(w, after, next, env, None, trace)
  {
  }

  /** Switch the nodes one at a time and stop at the first that fails. */
  method RotateAll(w: World, next: Authority, env: Env)
    returns (after: World, outcome: Option<Outcome>, trace: seq<Event>)
    requires WellFormed(w) && next != Current(w)
    ensures RotatedAll(w, after, next, env, outcome, trace)
  {
    after, trace := w, [];
    LoopStarts(w, next, env);
    for i := 0 to |w.config.nodes|
      invariant Looping(w, after, i, next, env, trace)
    {
      var before := after;
      var part;
      after, outcome, part := RotateNode(before, i, next, env);
      if outcome.Some? {
        LoopStops(w, before, after, i, next, env, outcome.value, trace, part);
        trace := trace + part;
        return;
      }
      LoopGoesOn(w, before, after, i, next, env, trace, part);
      trace := trace + part;
    }
    outcome := None;
    LoopEnds(w, after, next, env, trace);
  }

  /** The ClusterConfig already names `output`: every node must accept it. */
  method CheckAll(w: World, env: Env) returns (ok: bool)
    requires WellFormed(w)
    ensures ok <==> forall n | n in w.config.nodes :: env.reach(n, 0) && Accepts(w.agents[n], Current(w))
  {
    for i := 0 to |w.config.nodes|
      invariant forall k | 0 <= k < i ::
        env.reach(w.config.nodes[k], 0) && Accepts(w.agents[w.config.nodes[k]], Current(w))
    {
      var n := w.config.nodes[i];
      if !(env.reach(n, 0) && Accepts(w.agents[n], Current(w))) {
        return false;
      }
    }
    return true;
  }

  /** Change the reference in the config file, unless the file is no longer what the run read. An
      edit made before the comparison always survives; one made between the comparison and the
      rename survives exactly when the rename fails or it writes what was there. */
  method ReferenceSecrets(read: Config, output: Path, edits: Edits) returns (after: Config, ok: bool)
    ensures ok <==> edits.renamed && (edits.before.None? || edits.before.value == read.rest)
    ensures ok ==> after == read.(secrets := output)
    ensures !ok ==> after == read.(rest := after.rest)
    ensures edits.before.Some? && (edits.between.None? || edits.before.value != read.rest) ==>
      after.rest == edits.before.value
    ensures edits.between.Some? && (edits.before.None? || edits.before.value == read.rest) ==>
      (after.rest == edits.between.value <==> !edits.renamed || edits.between.value == read.rest)
  {
    after := read;
    if edits.before.Some? {
      after := after.(rest := edits.before.value);
    }
    if after != read {
      return after, false;
    }
    if edits.between.Some? {
      after := after.(rest := edits.between.value);
    }
    if !edits.renamed {
      return after, false;
    }
    return read.(secrets := output), true;
  }

  /** Nothing stands in the way of finishing the rotation to `output`. */
  ghost predicate Resumable(w: World, output: Path, env: Env)
    requires WellFormed(w)
  {
    Helpful(env) && Startable(w, output, env)
  }

  /** A smooth run toward `output` reaches every node. */
  ghost predicate Startable(w: World, output: Path, env: Env)
    requires WellFormed(w)
  {
    && Ready(w, NextAuthority(w, output, env), env) && output != w.config.secrets
    && (output in w.files ==> Fits(w, w.files[output]))
  }

  /** What a finished rotation leaves: the configured authority on every node and in every agent. */
  ghost predicate AllOnCurrent(w: World)
    requires WellFormed(w)
  {
    forall n | n in w.agents ::
      w.agents[n].disk == Current(w) && (w.agents[n].served.Some? ==> w.agents[n].served.value == Current(w))
  }

  /** Every node was on the configured authority and only a request that expects it takes one away. */
  ghost predicate AllStayed(w: World)
    requires WellFormed(w)
  {
    forall n | n in w.agents :: Stayed(w, n, Current(w))
  }

  /** Where no request expects the configured authority, every node is still on it. */
  lemma AllStayOn(w: World)
    requires WellFormed(w) && AllStayed(w) && Unexpected(w.issued, Current(w))
    ensures AllOnCurrent(w)
  {
    forall n | n in w.agents ensures w.agents[n].disk == Current(w) && w.agents[n].served in {None, Some(Current(w))} {
      assert Stayed(w, n, Current(w));
    }
  }

  /** Moving the reference to what every node runs leaves a settled world. */
  lemma ReferenceKeeps(w: World, after: World, output: Path)
    requires output in w.files
    requires Sendable(w, 0, w.files[output].authority) && Verified(w, |w.config.nodes|, w.files[output].authority)
    requires after == w.(config := w.config.(secrets := output, rest := after.config.rest))
    ensures Settled(after) && AllOnCurrent(after)
  {
    forall n | n in w.agents ensures after.agents[n].disk == Current(after)
      && after.agents[n].served in {None, Some(Current(after))}
    {
      var k :| 0 <= k < |w.config.nodes| && w.config.nodes[k] == n;
      assert Stayed(w, n, w.files[output].authority);
    }
  }

  /** What else is in the config does not matter. */
  lemma EditKeeps(w: World, after: World)
    requires Settled(w) && after == w.(config := w.config.(rest := after.config.rest))
    ensures Settled(after)
  {
    forall n, a | Standing(w, n, a) ensures Standing(after, n, a) {
      var j :| 0 <= j < |w.config.nodes| && w.config.nodes[j] == n && OnDisk(w, j, a);
      assert OnDisk(after, j, a);
      assert Saved(w, a) ==> Saved(after, a);
    }
  }

  /** The last step of a rotation, after all nodes were verified. */
  method Reference(w: World, output: Path, env: Env) returns (after: World, outcome: Outcome)
    requires WellFormed(w) && output in w.files && Verified(w, |w.config.nodes|, w.files[output].authority)
    ensures after == w.(config := after.config)
    ensures Sendable(w, 0, w.files[output].authority) ==> Settled(after)
    ensures outcome in {ConfigChanged, Rotated}
    ensures outcome == Rotated ==>
      env.edits.renamed && after.config == w.config.(secrets := output) && AllStayed(after)
    ensures outcome == Rotated && Unexpected(w.issued, w.files[output].authority) ==> AllOnCurrent(after)
    ensures outcome != Rotated ==> after.config == w.config.(rest := after.config.rest)
    ensures env.edits == Edits(None, None, true) ==> outcome == Rotated
  {
    var config, ok := ReferenceSecrets(w.config, output, env.edits);
    after := w.(config := config);
    if !ok {
      if Settled(w) {
        EditKeeps(w, after);
      }
      return after, ConfigChanged;
    }
    if Sendable(w, 0, w.files[output].authority) {
      ReferenceKeeps(w, after, output);
    }
    forall n | n in w.agents ensures Stayed(after, n, w.files[output].authority) {
      var k :| 0 <= k < |w.config.nodes| && w.config.nodes[k] == n;
    }
    if Unexpected(w.issued, w.files[output].authority) {
      AllStayOn(after);
    }
    return after, Rotated;
  }

  /** What the operator sees of a run that got as far as the nodes: dry runs of all nodes, and only if all
      were accepted the node loop; only if that succeeds the change of the reference. */
  ghost predicate Ran(w: World, next: Authority, env: Env, outcome: Outcome, trace: seq<Event>)
    requires WellFormed(w)
  {
    && Answered(w, next, env, trace)
    && if outcome == PreflightFailed then Preflighted(w.config.nodes, false, trace)
       else
         && (forall n | n in w.config.nodes :: env.dryRun(n).admissible && env.dryRun(n).replies)
         && exists loop ::
              && Looped(w.config.nodes, Current(w), next,
                   if outcome in {ConfigChanged, Rotated} then None else Some(outcome), loop)
              && trace == Rehearsed(w.config.nodes) + loop
  }

  lemma RanLoop(
      w: World, checked: World, next: Authority, env: Env, failed: Option<Outcome>, dry: seq<Event>, loop: seq<Event>)
    requires WellFormed(w) && WellFormed(checked) && checked.config == w.config && checked.files == w.files
    requires Calm(w, env) ==> checked.agents == w.agents
    requires Preflighted(w.config.nodes, true, dry) && Answered(w, next, env, dry)
    requires Looped(w.config.nodes, Current(w), next, failed, loop) && Answered(checked, next, env, loop)
    requires failed.Some? ==> failed.value in {RotationFailed, VerificationFailed}
    ensures failed.Some? ==> Ran(w, next, env, failed.value, dry + loop)
    ensures failed.None? ==> Ran(w, next, env, ConfigChanged, dry + loop) && Ran(w, next, env, Rotated, dry + loop)
  {
    AnsweredLater(w, checked, next, env, loop);
    forall n | n in w.config.nodes ensures env.dryRun(n).admissible && env.dryRun(n).replies {
      var k :| 0 <= k < |w.config.nodes| && w.config.nodes[k] == n;
      assert dry[k] == DryRan(n, true) && dry[k] in dry;
    }
    forall e | e in dry + loop ensures Backed(env, e) && (Calm(w, env) ==> Exact(w, next, env, e)) {
      assert e in dry || e in loop;
    }
  }

  /** The files do not matter to what the nodes answer. */
  lemma RanSame(w: World, saved: World, next: Authority, env: Env, outcome: Outcome, trace: seq<Event>)
    requires WellFormed(w) && WellFormed(saved) && saved.config == w.config && saved.agents == w.agents
    requires Current(saved) == Current(w) && Ran(saved, next, env, outcome, trace)
    ensures Ran(w, next, env, outcome, trace)
  {
  }

  /** What preflight, node loop and change of the reference do together, from any world. */
  ghost predicate SwitchedOver(w: World, output: Path, env: Env, after: World, outcome: Outcome, trace: seq<Event>) {
    && WellFormed(w) && output in w.files
    && var next := w.files[output].authority;
    && AgentsFollow(w, after) && Sends(w, after, next) && after.files == w.files && Ran(w, next, env, outcome, trace)
    && outcome in {PreflightFailed, RotationFailed, VerificationFailed, ConfigChanged, Rotated}
    && (outcome == PreflightFailed ==> after.issued == w.issued && after.config == w.config)
    && (outcome == Rotated ==> after.config == w.config.(secrets := output))
    && (outcome != Rotated ==> after.config == w.config.(rest := after.config.rest))
    && (outcome == Rotated ==> env.edits.renamed && AllStayed(after))
    && (outcome == Rotated && Unexpected(w.issued, next) ==> AllOnCurrent(after))
    && (Settled(w) && (outcome == PreflightFailed || Unexpected(w.issued, next)) ==> Settled(after))
    && (outcome in {ConfigChanged, Rotated} ==>
          forall n | n in w.agents :: Request(n, Current(w), next) in after.issued)
    && (Ready(w, next, env) ==>
          && outcome in {ConfigChanged, Rotated} && (env.edits == Edits(None, None, true) ==> outcome == Rotated)
          && forall n | n in w.agents :: after.agents[n].disk == next)
  }

  /** Preflight all, switch all, then change the reference. */
  method Switchover(w: World, output: Path, env: Env) returns (after: World, outcome: Outcome, trace: seq<Event>)
    requires WellFormed(w) && output in w.files && w.files[output].authority != Current(w)
    ensures SwitchedOver(w, output, env, after, outcome, trace)
  {
    var next := w.files[output].authority;
    var checked, passed;
    checked, passed, trace := Preflight(w, next, env);
    if !passed {
      return checked, PreflightFailed, trace;
    }
    assert Saved(checked, next);
    var switched, failed, loop := RotateAll(checked, next, env);
    AgentsThen(w, checked, switched);
    RanLoop(w, checked, next, env, failed, trace, loop);
    trace := trace + loop;
    if failed.Some? {
      return switched, failed.value, trace;
    }
    EachNode(w, switched, next);
    after, outcome := Conclude(w, switched, output, env);
  }

  /** Once every node was verified, change the reference. */
  method Conclude(ghost w: World, switched: World, output: Path, env: Env) returns (after: World, outcome: Outcome)
    requires WellFormed(w) && Frame(w, switched) && output in w.files
    requires var next := w.files[output].authority;
      next != Current(w) && Sends(w, switched, next) && Verified(switched, |w.config.nodes|, next)
    ensures AgentsFollow(w, after) && after.files == w.files && after.issued == switched.issued
    ensures outcome in {ConfigChanged, Rotated}
    ensures outcome == Rotated ==> after.config == w.config.(secrets := output) && env.edits.renamed && AllStayed(after)
    ensures outcome != Rotated ==> after.config == w.config.(rest := after.config.rest)
    ensures outcome == Rotated && Unexpected(w.issued, w.files[output].authority) ==> AllOnCurrent(after)
    ensures Sendable(switched, 0, w.files[output].authority) ==> Settled(after)
    ensures env.edits == Edits(None, None, true) ==> outcome == Rotated
    ensures Smooth(env) ==> after.agents == switched.agents
  {
    var next := switched.files[output].authority;
    var drifted := DriftAll(switched, env.drift("", 5), 0, next);
    AgentsThen(w, switched, drifted);
    VerifiedKept(switched, drifted, |w.config.nodes|, next);
    after, outcome := Reference(drifted, output, env);
    AgentsSame(drifted, after);
    AgentsThen(w, drifted, after);
  }

  lemma EachNode(w: World, after: World, next: Authority)
    requires WellFormed(w) && Frame(w, after) && Sent(after, |w.config.nodes|, next)
    ensures forall n | n in w.agents :: Request(n, Current(w), next) in after.issued
    ensures OnDisk(after, |w.config.nodes|, next) ==> forall n | n in w.agents :: after.agents[n].disk == next
  {
    forall n | n in w.agents ensures Request(n, Current(w), next) in after.issued
      && (OnDisk(after, |w.config.nodes|, next) ==> after.agents[n].disk == next)
    {
      var k :| 0 <= k < |w.config.nodes| && w.config.nodes[k] == n;
      assert SwitchRequest(after, k, next) in after.issued;
    }
  }

  /** The outcomes of a run that went as far as sending a switch request. */
  ghost predicate SwitchSent(o: Outcome) {
    o in {RotationFailed, VerificationFailed, ConfigChanged, Rotated}
  }

  /** Why a run ends before it reaches the nodes; it reaches them exactly if none of this holds. */
  ghost predicate Refuses(w: World, output: Path, env: Env, outcome: Outcome)
    requires WellFormed(w)
  {
    if !env.usable then outcome == Unusable
    else if w.config.secrets == output then
      outcome == if forall n | n in w.config.nodes :: env.reach(n, 0) && Accepts(w.agents[n], Current(w))
        then AlreadyUses else NotAccepted
    else if !(if output in w.files then Fits(w, w.files[output]) else env.publish == Published) then
      outcome == NoReplacement
    else if NextAuthority(w, output, env) == Current(w) then outcome == SameAuthority
    else if !env.addressed then outcome == Unaddressed
    else outcome == PreflightFailed || SwitchSent(outcome)
  }

  /** The disk is as it was, or moved from the configured authority as an earlier request says or to
      the authority of the new requests. */
  ghost predicate MovesOnce(w: World, after: World, n: string, next: Authority)
    requires WellFormed(w) && n in w.agents
  {
    n in after.agents && (after.agents[n].disk != w.agents[n].disk ==>
      && w.agents[n].disk == Current(w)
      && (LateMove(w, n, after.agents[n].disk) || (after.issued != w.issued && after.agents[n].disk == next)))
  }

  /** What a run changes, from any world. */
  ghost predicate Changes(w: World, output: Path, env: Env, after: World, outcome: Outcome)
    requires WellFormed(w)
  {
    && ChangesFiles(w, output, env, after) && WellFormed(after)
    && ChangesAgents(w, output, after, outcome) && ChangesConfig(w, output, env, after, outcome)
    && (outcome in {AlreadyUses, NotAccepted} ==> after == w)
    && (outcome == AlreadyUses ==> forall n | n in w.agents :: Accepts(w.agents[n], Current(w)))
  }

  /** No file is changed or lost, and at most the replacement is new. */
  ghost predicate ChangesFiles(w: World, output: Path, env: Env, after: World) {
    && (forall p | p in w.files :: p in after.files && after.files[p] == w.files[p])
    && (forall p | p in after.files :: p in w.files || p == output)
    && (output in after.files ==> after.files[output].authority == NextAuthority(w, output, env))
  }

  /** Agents move along requests; the new ones lead to the saved replacement and in the end reach every node. */
  ghost predicate ChangesAgents(w: World, output: Path, after: World, outcome: Outcome)
    requires WellFormed(w)
  {
    && AgentsFollow(w, after)
    && (forall r | r in after.issued && r !in w.issued ::
          output in after.files && r.expected == Current(w) != r.next && r.next == after.files[output].authority)
    && (!SwitchSent(outcome) ==> after.issued == w.issued)
    && (outcome in {ConfigChanged, Rotated} ==>
          && output in after.files
          && forall n | n in w.agents :: Request(n, Current(w), after.files[output].authority) in after.issued)
  }

  /** The reference moves only when every node was verified on the replacement. */
  ghost predicate ChangesConfig(w: World, output: Path, env: Env, after: World, outcome: Outcome) {
    && (!SwitchSent(outcome) ==> after.config == w.config)
    && (outcome == Rotated ==>
          && after.config == w.config.(secrets := output) && env.edits.renamed
          && WellFormed(after) && AllStayed(after))
    && (outcome != Rotated ==> after.config == w.config.(rest := after.config.rest))
  }

  /** What a run promises when the replacement is not in reuse. */
  ghost predicate KeepsSettled(w: World, output: Path, env: Env, after: World, outcome: Outcome)
    requires WellFormed(w) && WellFormed(after)
  {
    && (Settled(w) && !SwitchSent(outcome) ==> Settled(after))
    && (Unexpected(w.issued, NextAuthority(w, output, env)) ==>
          && (Settled(w) ==> Settled(after))
          && (Settled(w) ==> forall n | n in w.agents :: MovesOnce(w, after, n, NextAuthority(w, output, env)))
          && (outcome == Rotated ==> AllOnCurrent(after)))
  }

  /** A run that can start and that nothing disturbs reaches every node. */
  ghost predicate Arrives(w: World, output: Path, env: Env, after: World, outcome: Outcome)
    requires WellFormed(w) && w.agents.Keys <= after.agents.Keys
  {
    Startable(w, output, env) ==>
      && outcome in {ConfigChanged, Rotated} && (Helpful(env) ==> outcome == Rotated)
      && forall n | n in w.agents :: after.agents[n].disk == NextAuthority(w, output, env)
  }

  /** How a run ends, and what the operator saw: the nodes are reached exactly if nothing refuses the run,
      and switch requests are sent only after every node accepted its dry run. */
  ghost predicate Ends(w: World, output: Path, env: Env, after: World, outcome: Outcome, trace: seq<Event>)
    requires WellFormed(w)
  {
    && Refuses(w, output, env, outcome)
    && (if outcome == PreflightFailed || SwitchSent(outcome)
        then Ran(w, NextAuthority(w, output, env), env, outcome, trace) else trace == [])
    && (SwitchSent(outcome) || after.issued != w.issued ==>
          forall n | n in w.agents :: env.dryRun(n).admissible && env.dryRun(n).replies)
  }

  /** A whole run from any world. It keeps a settled world settled if it brings in an authority that
      no earlier request would take a node away from, or sends nothing. */
  method Rotate(w: World, output: Path, env: Env) returns (after: World, outcome: Outcome, trace: seq<Event>)
    requires WellFormed(w)
    ensures Changes(w, output, env, after, outcome)
    ensures KeepsSettled(w, output, env, after, outcome)
    ensures Arrives(w, output, env, after, outcome)
    ensures Ends(w, output, env, after, outcome, trace)
  {
    var saved, stop := Begin(w, output, env);
    if stop.Some? {
      return saved, stop.value, [];
    }
    after, outcome, trace := Switchover(saved, output, env);
    RunEnds(w, saved, output, env, after, outcome, trace);
  }

  lemma RunEnds(
      w: World, saved: World, output: Path, env: Env, after: World, outcome: Outcome, trace: seq<Event>)
    requires Replaced(w, saved, output, env) && SwitchedOver(saved, output, env, after, outcome, trace)
    requires env.usable && w.config.secrets != output && env.addressed
    requires if output in w.files then Fits(w, w.files[output]) else env.publish == Published
    ensures Changes(w, output, env, after, outcome) && KeepsSettled(w, output, env, after, outcome)
    ensures Arrives(w, output, env, after, outcome) && Ends(w, output, env, after, outcome, trace)
  {
    SwitchedFrom(w, saved, output, env, after, outcome, trace);
    SwitchedSettled(w, saved, output, env, after, outcome, trace);
    SwitchedArrives(w, saved, output, env, after, outcome);
    SwitchedEnds(w, saved, output, env, after, outcome, trace);
  }

  /** The run stops before it reaches any node. */
  ghost predicate Stops(w: World, output: Path, env: Env, after: World, outcome: Outcome)
    requires WellFormed(w)
  {
    && outcome in {Unusable, NotAccepted, AlreadyUses, NoReplacement, SameAuthority, Unaddressed}
    && Refuses(w, output, env, outcome) && Changes(w, output, env, after, outcome)
    && KeepsSettled(w, output, env, after, outcome) && Arrives(w, output, env, after, outcome)
  }

  /** Everything up to the nodes: read the config, load or create the replacement, find the addresses. */
  method Begin(w: World, output: Path, env: Env) returns (saved: World, stop: Option<Outcome>)
    requires WellFormed(w)
    ensures stop.Some? ==> Stops(w, output, env, saved, stop.value)
    ensures stop.None? ==>
      && Replaced(w, saved, output, env) && env.usable && w.config.secrets != output && env.addressed
      && (if output in w.files then Fits(w, w.files[output]) else env.publish == Published)
  {
    if !env.usable {
      Unchanged(w, output, env, Unusable);
      return w, Some(Unusable);
    }
    if w.config.secrets == output {
      var accepted := CheckAll(w, env);
      stop := Some(if accepted then AlreadyUses else NotAccepted);
      Unchanged(w, output, env, stop.value);
      return w, stop;
    }
    var bundle;
    saved, bundle := Replacement(w, output, env);
    if bundle.None? {
      SavedOnly(w, saved, output, env, NoReplacement);
      return saved, Some(NoReplacement);
    }
    if bundle.value.authority == Current(w) {
      SavedOnly(w, saved, output, env, SameAuthority);
      return saved, Some(SameAuthority);
    }
    SavedOnly(w, saved, output, env, Unaddressed);
    stop := if env.addressed then None else Some(Unaddressed);
  }

  lemma Unchanged(w: World, output: Path, env: Env, o: Outcome)
    requires WellFormed(w) && Refuses(w, output, env, o) && (!env.usable || w.config.secrets == output)
    ensures Changes(w, output, env, w, o) && KeepsSettled(w, output, env, w, o) && Arrives(w, output, env, w, o)
  {
    AgentsSame(w, w);
    assert forall n | n in w.agents :: n in w.config.nodes;
  }

  /** A run that stops once the replacement is saved, or before. */
  lemma SavedOnly(w: World, saved: World, output: Path, env: Env, o: Outcome)
    requires WellFormed(w)
    requires saved.config == w.config && saved.agents == w.agents && saved.issued == w.issued
    requires forall p | p in w.files :: p in saved.files && saved.files[p] == w.files[p]
    requires forall p | p in saved.files :: p in w.files || p == output
    requires output in saved.files ==> saved.files[output].authority == NextAuthority(w, output, env)
    requires o in {NoReplacement, SameAuthority, Unaddressed}
    ensures Settled(w) ==> Settled(saved)
    ensures Changes(w, output, env, saved, o) && KeepsSettled(w, output, env, saved, o)
  {
    AgentsSame(w, saved);
    if Settled(w) {
      FilesGrow(w, saved);
    }
  }

  /** Only the replacement was saved on the way from `w` to `saved`. */
  ghost predicate Replaced(w: World, saved: World, output: Path, env: Env) {
    && WellFormed(w) && saved.config == w.config && saved.agents == w.agents && saved.issued == w.issued
    && (forall p | p in w.files :: p in saved.files && saved.files[p] == w.files[p])
    && (forall p | p in saved.files :: p in w.files || p == output)
    && output in saved.files && saved.files[output].authority == NextAuthority(w, output, env) != Current(w)
    && (Settled(w) ==> Settled(saved))
  }

  lemma SwitchedFrom(
      w: World, saved: World, output: Path, env: Env, after: World, outcome: Outcome, trace: seq<Event>)
    requires Replaced(w, saved, output, env) && SwitchedOver(saved, output, env, after, outcome, trace)
    ensures Changes(w, output, env, after, outcome)
  {
    SwitchedAgents(w, saved, after);
    assert after.files[output].authority == NextAuthority(w, output, env);
  }

  lemma SwitchedAgents(w: World, saved: World, after: World)
    requires saved.agents == w.agents && saved.issued == w.issued && AgentsFollow(saved, after)
    ensures AgentsFollow(w, after)
  {
    AgentsSame(w, saved);
    AgentsThen(w, saved, after);
  }

  lemma SwitchedArrives(w: World, saved: World, output: Path, env: Env, after: World, outcome: Outcome)
    requires Replaced(w, saved, output, env) && w.agents.Keys <= after.agents.Keys
    requires var next := NextAuthority(w, output, env);
      Ready(saved, next, env) ==>
        && outcome in {ConfigChanged, Rotated} && (env.edits == Edits(None, None, true) ==> outcome == Rotated)
        && forall n | n in w.agents :: after.agents[n].disk == next
    ensures Arrives(w, output, env, after, outcome)
  {
  }

  lemma SwitchedSettled(
      w: World, saved: World, output: Path, env: Env, after: World, outcome: Outcome, trace: seq<Event>)
    requires Replaced(w, saved, output, env) && SwitchedOver(saved, output, env, after, outcome, trace)
    requires WellFormed(after) && AgentsFollow(w, after)
    ensures KeepsSettled(w, output, env, after, outcome)
  {
    var next := NextAuthority(w, output, env);
    if Settled(w) && Unexpected(w.issued, next) {
      AllMoveOnce(w, after, next);
    }
  }

  lemma SwitchedEnds(
      w: World, saved: World, output: Path, env: Env, after: World, outcome: Outcome, trace: seq<Event>)
    requires Replaced(w, saved, output, env) && SwitchedOver(saved, output, env, after, outcome, trace)
    requires env.usable && w.config.secrets != output && env.addressed
    requires if output in w.files then Fits(w, w.files[output]) else env.publish == Published
    ensures Ends(w, output, env, after, outcome, trace)
  {
    RanSame(w, saved, NextAuthority(w, output, env), env, outcome, trace);
  }

  lemma AllMoveOnce(w: World, after: World, next: Authority)
    requires Settled(w) && AgentsFollow(w, after) && Sends(w, after, next) && Unexpected(w.issued, next)
    ensures forall n | n in w.agents :: MovesOnce(w, after, n, next)
  {
    forall n | n in w.agents ensures MovesOnce(w, after, n, next) {
      SettledMoves(w, after, n, next);
    }
  }

  lemma FilesGrow(w: World, after: World)
    requires Settled(w)
    requires after.config == w.config && after.agents == w.agents && after.issued == w.issued
    requires forall p | p in w.files :: p in after.files && after.files[p] == w.files[p]
    ensures Settled(after)
  {
    forall n, a | Standing(w, n, a) ensures Standing(after, n, a) {
      var j :| 0 <= j < |w.config.nodes| && w.config.nodes[j] == n && OnDisk(w, j, a);
      assert OnDisk(after, j, a);
      var p :| p in w.files && w.files[p].authority == a;
      assert p in after.files && after.files[p].authority == a;
    }
  }
}
