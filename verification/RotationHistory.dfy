/** What holds over any number of rotation runs, with nodes restarting, failing and acting on old
    requests during the runs and in between. */
module RotationHistory {
  import opened Results
  import opened RotationWorld
  import opened Rotation

  /** One run, followed by whatever nodes do on their own before the next. */
  datatype Attempt = Attempt(output: Path, env: Env, meanwhile: seq<(string, Drift)>)

  ghost predicate Grown(files: map<Path, Bundle>, later: map<Path, Bundle>) {
    forall p | p in files :: p in later && later[p] == files[p]
  }

  /** The nodes are never split: those off the configured authority share one replacement. */
  ghost predicate NeverSplit(w: World)
    requires WellFormed(w)
  {
    forall n, m | n in w.agents && m in w.agents
      && w.agents[n].disk != Current(w) && w.agents[m].disk != Current(w) :: w.agents[n].disk == w.agents[m].disk
  }

  /** Every authority an agent trusts or a disk holds is in some saved file, so the operator can
      always reach or recover every node. */
  ghost predicate NeverLockedOut(w: World) {
    forall n | n in w.agents ::
      Saved(w, w.agents[n].disk) && (w.agents[n].served.Some? ==> Saved(w, w.agents[n].served.value))
  }

  ghost predicate Safe(w: World) {
    WellFormed(w) && NeverSplit(w) && NeverLockedOut(w)
  }

  lemma SettledMeans(w: World)
    requires Settled(w)
    ensures Safe(w)
  {
    forall n, m | n in w.agents && m in w.agents && w.agents[n].disk != Current(w) && w.agents[m].disk != Current(w)
      ensures w.agents[n].disk == w.agents[m].disk
    {
      OneReplacement(w, n, m);
    }
    assert Saved(w, Current(w));
  }

  // ---------------------------------------------------------------------------------------
  // Any runs

  function Next(w: World, a: Attempt): Authority {
    NextAuthority(w, a.output, a.env)
  }

  /** An attempt toward an authority that some earlier request would take a node away from. */
  ghost predicate Reuses(w: World, a: Attempt) {
    !Unexpected(w.issued, Next(w, a))
  }

  /** What one attempt does, with the nodes drifting after it. Whatever the world: no file is changed
      or lost, agents move along requests only, new requests lead to the saved replacement, a run with
      nothing in its way finishes, and the reference moves only when every node was on the replacement.
      A settled world stays settled unless a request went out for an authority in reuse. */
  ghost predicate Attempted(w: World, a: Attempt, after: World, outcome: Outcome) {
    && WellFormed(w) && WellFormed(after) && Grown(w.files, after.files) && AgentsFollow(w, after)
    && (a.output in after.files ==> after.files[a.output].authority == Next(w, a))
    && (forall r | r in after.issued && r !in w.issued ::
          a.output in after.files && r.expected == Current(w) != r.next && r.next == Next(w, a))
    && (!SwitchSent(outcome) ==> after.issued == w.issued)
    && (Resumable(w, a.output, a.env) ==> outcome == Rotated)
    && (outcome == Rotated ==> after.config.secrets == a.output && AllStayed(after))
    && (outcome != Rotated ==> after.config.secrets == w.config.secrets)
    && (Settled(w) && (!Reuses(w, a) || !SwitchSent(outcome)) ==> Settled(after))
  }

  /** Drift after a run adds nothing that matters. */
  lemma DriftsAttempted(w: World, a: Attempt, ran: World, outcome: Outcome)
    requires Attempted(w, a, ran, outcome)
    ensures Attempted(w, a, Drifts(ran, a.meanwhile), outcome)
  {
    var after := Drifts(ran, a.meanwhile);
    DriftsFrame(ran, a.meanwhile);
    AgentsThen(w, ran, after);
    if Settled(ran) {
      DriftsKeep(ran, a.meanwhile);
    }
    if outcome == Rotated {
      forall n | n in ran.agents ensures Stayed(after, n, Current(after)) {
        StayedKept(ran, after, n, Current(ran));
      }
    }
  }

  method RunOnce(w: World, a: Attempt) returns (after: World, outcome: Outcome)
    requires WellFormed(w)
    ensures Attempted(w, a, after, outcome)
  {
    var ran;
    var trace;
    ran, outcome, trace := Rotate(w, a.output, a.env);
    after := Drifts(ran, a.meanwhile);
    DriftsAttempted(w, a, ran, outcome);
  }

  ghost predicate History(worlds: seq<World>, attempts: seq<Attempt>, outcomes: seq<Outcome>) {
    && |outcomes| == |attempts| && |worlds| == |attempts| + 1
    && forall i | 0 <= i < |attempts| :: Attempted(worlds[i], attempts[i], worlds[i + 1], outcomes[i])
  }

  /** None of the first `i` attempts sent a request toward an authority in reuse. */
  ghost predicate NoReuse(worlds: seq<World>, attempts: seq<Attempt>, outcomes: seq<Outcome>, i: nat)
    requires i <= |attempts| == |outcomes| && i < |worlds|
  {
    forall k | 0 <= k < i && SwitchSent(outcomes[k]) :: !Reuses(worlds[k], attempts[k])
  }

  lemma {:induction false} HistorySettled(
      worlds: seq<World>, attempts: seq<Attempt>, outcomes: seq<Outcome>, i: nat)
    requires History(worlds, attempts, outcomes) && i <= |attempts| && NoReuse(worlds, attempts, outcomes, i)
    requires Settled(worlds[0])
    ensures Settled(worlds[i])
  {
    if i > 0 {
      HistorySettled(worlds, attempts, outcomes, i - 1);
      assert Attempted(worlds[i - 1], attempts[i - 1], worlds[i], outcomes[i - 1]);
    }
  }

  /** Any number of runs toward any outputs, rotation after rotation, with agents stopping and
      restarting and nodes acting late on old requests. As long as no request went out for an
      authority that was replaced before, the nodes are at every point on the configured authority
      or one replacement and the operator can reach every one. */
  method AnyRuns(w: World, attempts: seq<Attempt>) returns (worlds: seq<World>, outcomes: seq<Outcome>)
    requires WellFormed(w)
    ensures History(worlds, attempts, outcomes) && worlds[0] == w
    ensures Settled(w) ==> forall i | 0 <= i < |worlds| ::
      NoReuse(worlds, attempts, outcomes, i) ==> Settled(worlds[i]) && Safe(worlds[i])
  {
    worlds, outcomes := [w], [];
    for i := 0 to |attempts|
      invariant |outcomes| == i && |worlds| == i + 1 && worlds[0] == w && WellFormed(worlds[i])
      invariant forall k | 0 <= k < i :: Attempted(worlds[k], attempts[k], worlds[k + 1], outcomes[k])
    {
      var after, outcome := RunOnce(worlds[i], attempts[i]);
      worlds, outcomes := worlds + [after], outcomes + [outcome];
    }
    if Settled(w) {
      forall i | 0 <= i < |worlds| && NoReuse(worlds, attempts, outcomes, i)
        ensures Settled(worlds[i]) && Safe(worlds[i])
      {
        HistorySettled(worlds, attempts, outcomes, i);
        SettledMeans(worlds[i]);
      }
    }
  }

  // ---------------------------------------------------------------------------------------
  // Going back and forth between two authorities

  /** Everything in use, and everything a node could still be told to use, is one of two authorities
      and saved. */
  ghost predicate Paired(w: World, a: Authority, b: Authority) {
    && WellFormed(w) && Current(w) in {a, b}
    && (forall n | n in w.agents ::
          && w.agents[n].disk in {a, b}
          && (w.agents[n].served.Some? ==> w.agents[n].served.value in {a, b}))
    && NeverLockedOut(w)
    && (forall r | r in w.issued && r.node in w.agents && r.expected in {a, b} ::
          r.next in {a, b} && Saved(w, r.next))
  }

  lemma PairedMeans(w: World, a: Authority, b: Authority)
    requires Paired(w, a, b)
    ensures Safe(w)
  {
  }

  lemma SavedGrows(w: World, after: World, a: Authority)
    requires Grown(w.files, after.files) && Saved(w, a)
    ensures Saved(after, a)
  {
    var p :| p in w.files && w.files[p].authority == a;
    assert p in after.files;
  }

  /** Runs toward either of the two keep to the two, whatever requests are on record. */
  lemma PairKept(w: World, t: Attempt, after: World, outcome: Outcome, a: Authority, b: Authority)
    requires Paired(w, a, b) && Attempted(w, t, after, outcome) && Next(w, t) in {a, b}
    ensures Paired(after, a, b)
  {
    assert t.output in after.files ==> Saved(after, Next(w, t));
    assert Current(after) == if after.config.secrets == w.config.secrets then Current(w) else Next(w, t);
    PairGrows(w, after, Next(w, t), a, b);
  }

  lemma PairGrows(w: World, after: World, next: Authority, a: Authority, b: Authority)
    requires Paired(w, a, b) && next in {a, b} && WellFormed(after) && Current(after) in {a, b}
    requires Grown(w.files, after.files) && AgentsFollow(w, after)
    requires forall r | r in after.issued && r !in w.issued :: r.next == next && Saved(after, next)
    ensures Paired(after, a, b)
  {
    forall x | Saved(w, x) ensures Saved(after, x) {
      SavedGrows(w, after, x);
    }
    var s := set x | x in {a, b} && Saved(after, x);
    PairAgents(w, after, next, a, b, s);
    PairRequests(w, after, next, a, b);
  }

  lemma PairAgents(w: World, after: World, next: Authority, a: Authority, b: Authority, s: set<Authority>)
    requires Paired(w, a, b) && next in {a, b} && AgentsFollow(w, after)
    requires forall x | Saved(w, x) :: Saved(after, x)
    requires forall r | r in after.issued && r !in w.issued :: r.next == next && Saved(after, next)
    requires s == set x | x in {a, b} && Saved(after, x)
    ensures forall n | n in w.agents :: after.agents[n].disk in s
    ensures forall n | n in w.agents :: after.agents[n].served == None || after.agents[n].served.value in s
  {
    forall n | n in w.agents ensures Closed(after.issued, n, s) {
    }
    AgentsWithin(w, after, s);
  }

  lemma PairRequests(w: World, after: World, next: Authority, a: Authority, b: Authority)
    requires Paired(w, a, b) && next in {a, b} && after.agents.Keys == w.agents.Keys
    requires forall x | Saved(w, x) :: Saved(after, x)
    requires forall r | r in after.issued && r !in w.issued :: r.next == next && Saved(after, next)
    ensures forall r | r in after.issued && r.node in after.agents && r.expected in {a, b} ::
      r.next in {a, b} && Saved(after, r.next)
  {
  }

  /** Any number of runs that roll forth and back between two authorities keep the nodes together. */
  lemma {:induction false} BackAndForth(
      worlds: seq<World>, attempts: seq<Attempt>, outcomes: seq<Outcome>, a: Authority, b: Authority, i: nat)
    requires History(worlds, attempts, outcomes) && i <= |attempts| && Paired(worlds[0], a, b)
    requires forall k | 0 <= k < i :: Next(worlds[k], attempts[k]) in {a, b}
    ensures Paired(worlds[i], a, b) && Safe(worlds[i])
  {
    if i > 0 {
      BackAndForth(worlds, attempts, outcomes, a, b, i - 1);
      PairKept(worlds[i - 1], attempts[i - 1], worlds[i], outcomes[i - 1], a, b);
    }
    PairedMeans(worlds[i], a, b);
  }

  // ---------------------------------------------------------------------------------------
  // When a reused authority splits the nodes

  /** Nothing but `next` competes: disks and requests a node could act on lead to it. */
  ghost predicate NoRival(w: World, next: Authority)
    requires WellFormed(w)
  {
    && Near(w, next)
    && (forall r | r in w.issued && r.node in w.agents && r.expected == Current(w) :: r.next == next)
  }

  /** Every request that takes a node from `next` takes it to the configured authority. */
  ghost predicate LeadBack(w: World, next: Authority)
    requires WellFormed(w)
  {
    forall r | r in w.issued && r.node in w.agents && r.expected == next :: r.next == Current(w)
  }

  /** Requests that lead back do no harm: the two authorities are a pair, and `BackAndForth` applies
      to any number of runs between them. */
  lemma LeadBackPairs(w: World, next: Authority)
    requires Settled(w) && NoRival(w, next) && LeadBack(w, next)
    ensures Paired(w, Current(w), next)
  {
    SettledMeans(w);
    assert Saved(w, Current(w));
  }

  const HELPFUL_NODE := NodeEnv(true, true, Switches, Fresh, true, true)

  /** A run that meets no failure but perhaps that of the last rename. */
  function SmoothEnv(generated: Authority, renamed: bool): (env: Env)
    ensures Smooth(env) && (renamed ==> Helpful(env))
  {
    Env(true, generated, Published, true, (n, k) => [], n => HELPFUL_NODE, n => HELPFUL_NODE, (n, k) => true,
        Edits(None, None, renamed))
  }

  /** A request that takes a node from the replacement anywhere else splits the nodes: the run switches
      every node and cannot change the reference, then that node acts on the old request. */
  method ReuseSplits(w: World, output: Path, generated: Authority, r: Request, n: string)
    returns (a: Attempt, after: World, outcome: Outcome)
    requires WellFormed(w) && Idle(w) && output != w.config.secrets
    requires var next := Toward(w, output, generated);
      && next != Current(w) && Near(w, next) && (output in w.files ==> Fits(w, w.files[output]))
      && r.expected == next && r.next !in {next, Current(w)}
    requires r in w.issued && r.node in w.agents && n in w.agents && n != r.node
    ensures a.output == output && a.env.generated == generated
    ensures Attempted(w, a, after, outcome) && !NeverSplit(after)
  {
    var env := SmoothEnv(generated, false);
    a := Attempt(output, env, [(r.node, Drift(Some(r), Untouched))]);
    var ran;
    var trace;
    ran, outcome, trace := Rotate(w, output, env);
    after := Drifts(ran, a.meanwhile);
    DriftsAttempted(w, a, ran, outcome);
    assert SmoothEnv(generated, false).edits.renamed == false;
    LateSplits(ran, r, n);
  }

  /** The exact condition, for a settled idle cluster of several nodes in which nothing competes with the
      replacement: a run and what the nodes do after it can split them just when some request takes a
      node from the replacement anywhere but back. */
  method CanSplit(w: World, output: Path, generated: Authority)
    returns (splits: bool, a: Attempt, after: World, outcome: Outcome)
    requires Settled(w) && Idle(w) && output != w.config.secrets && |w.agents| > 1
    requires var next := Toward(w, output, generated);
      next != Current(w) && NoRival(w, next) && (output in w.files ==> Fits(w, w.files[output]))
    ensures splits <==> !LeadBack(w, Toward(w, output, generated))
    ensures splits ==>
      && a.output == output && a.env.generated == generated
      && Attempted(w, a, after, outcome) && !NeverSplit(after)
    ensures !splits ==> forall t: Attempt, v, o |
      t.output == output && t.env.generated == generated && Attempted(w, t, v, o) :: Safe(v)
  {
    var next := Toward(w, output, generated);
    var bad := set r | r in w.issued && r.node in w.agents && r.expected == next && r.next != Current(w);
    splits := bad != {};
    assert forall r | r in w.issued && r.node in w.agents && r.expected == next && r.next != Current(w) :: r in bad;
    if splits {
      var r :| r in bad;
      var others := w.agents.Keys - {r.node};
      assert |others| == |w.agents.Keys| - 1;
      var n :| n in others;
      a, after, outcome := ReuseSplits(w, output, generated, r, n);
    } else {
      a, after, outcome := Attempt(output, SmoothEnv(generated, true), []), w, Unusable;
      LeadBackPairs(w, next);
      forall t: Attempt, v, o | t.output == output && t.env.generated == generated && Attempted(w, t, v, o)
        ensures Safe(v)
      {
        PairKept(w, t, v, o, Current(w), next);
        PairedMeans(v, Current(w), next);
      }
    }
  }

  /** The authority a run toward `output` brings in. */
  function Toward(w: World, output: Path, generated: Authority): Authority {
    if output in w.files then w.files[output].authority else generated
  }

  /** All nodes are on the replacement, the config is not, and one acts on an old request. */
  lemma LateSplits(w: World, r: Request, n: string)
    requires WellFormed(w) && r in w.issued && r.node in w.agents && n in w.agents && n != r.node
    requires w.agents[n].disk == r.expected && w.agents[r.node].disk == r.expected && !w.agents[r.node].busy
    requires r.expected != Current(w) && r.next !in {r.expected, Current(w)}
    ensures var after := Drifts(w, [(r.node, Drift(Some(r), Untouched))]); WellFormed(after) && !NeverSplit(after)
  {
    var steps := [(r.node, Drift(Some(r), Untouched))];
    assert steps[..0] == [] && Drifts(w, []) == w;
    var after := Drifts(w, steps);
    assert after == DriftNode(w, r.node, Drift(Some(r), Untouched));
    assert after.agents[r.node].disk == r.next && after.agents[n].disk == r.expected;
  }

  /** A run that nothing hinders, toward a file that may not exist yet. */
  method Finish(w: World, output: Path, generated: Authority) returns (a: Attempt, after: World)
    requires Settled(w) && Startable(w, output, SmoothEnv(generated, true))
    requires Unexpected(w.issued, NextAuthority(w, output, SmoothEnv(generated, true)))
    ensures Attempted(w, a, after, Rotated) && Settled(after) && Idle(after)
    ensures after.config == w.config.(secrets := output) && Next(w, a) == Current(after)
    ensures Next(w, a) == NextAuthority(w, output, SmoothEnv(generated, true))
    ensures forall n | n in w.agents ::
      after.agents[n].disk == Current(after) && Request(n, Current(w), Current(after)) in after.issued
    ensures forall p | p in after.files :: p in w.files || p == output
  {
    a := Attempt(output, SmoothEnv(generated, true), []);
    var outcome;
    var trace;
    after, outcome, trace := Rotate(w, output, a.env);
    assert Drifts(after, a.meanwhile) == after;
    DriftsAttempted(w, a, after, outcome);
  }

  /** Two nodes that were never rotated, and two new files for two new authorities. */
  ghost predicate Rotatable(w: World, b: Path, c: Path, toB: Authority, toC: Authority, n: string, m: string) {
    && Unrotated(w) && Idle(w) && n in w.agents && m in w.agents && n != m && Fits(w, w.files[w.config.secrets])
    && b !in w.files && c !in w.files && b != c && toB != Current(w) && toC !in {toB, Current(w)}
  }

  method RollTwice(w: World, b: Path, c: Path, toB: Authority, toC: Authority, n: string, m: string)
    returns (first: Attempt, w1: World, second: Attempt, w2: World)
    requires Rotatable(w, b, c, toB, toC, n, m)
    ensures Attempted(w, first, w1, Rotated) && first.output == b
    ensures Attempted(w1, second, w2, Rotated) && second.output == c
    ensures w2.config == w.config.(secrets := c) && Grown(w.files, w2.files) && Current(w2) == toC
    ensures w2.agents.Keys == w.agents.Keys && Idle(w2) && Near(w2, Current(w))
    ensures Request(m, Current(w), toB) in w2.issued
  {
    UnrotatedSettled(w);
    first, w1 := Finish(w, b, toB);
    RolledOnce(w, w1, b, c, toB, toC, n, m);
    second, w2 := Finish(w1, c, toC);
  }

  lemma RolledOnce(w: World, w1: World, b: Path, c: Path, toB: Authority, toC: Authority, n: string, m: string)
    requires Rotatable(w, b, c, toB, toC, n, m) && Settled(w1) && Idle(w1)
    requires w1.config == w.config.(secrets := b) && Current(w1) == toB
    requires forall p | p in w1.files :: p in w.files || p == b
    requires forall x | x in w1.agents :: w1.agents[x].disk == Current(w1)
    requires forall r | r in w1.issued :: r.expected == Current(w)
    ensures Startable(w1, c, SmoothEnv(toC, true)) && NextAuthority(w1, c, SmoothEnv(toC, true)) == toC
    ensures Unexpected(w1.issued, toC)
  {
  }

  /** Three runs from any such cluster: to a new authority, to another, and back to the first. Nothing
      fails but the last rename, and the nodes are split. */
  method RollBackSplits(w: World, b: Path, c: Path, toB: Authority, toC: Authority, n: string, m: string)
    returns (first: Attempt, w1: World, second: Attempt, w2: World, third: Attempt, w3: World, outcome: Outcome)
    requires Rotatable(w, b, c, toB, toC, n, m)
    ensures first.output == b && second.output == c && third.output == w.config.secrets
    ensures Attempted(w, first, w1, Rotated) && Attempted(w1, second, w2, Rotated)
    ensures Attempted(w2, third, w3, outcome) && !NeverSplit(w3)
  {
    first, w1, second, w2 := RollTwice(w, b, c, toB, toC, n, m);
    third, w3, outcome := ReuseSplits(w2, w.config.secrets, toC, Request(m, Current(w), toB), n);
  }

  /** Such a cluster. */
  lemma RollBackHappens()
    ensures Rotatable(
      World(Config("lab", "a", ["n", "m"], ""), map["a" := Bundle("lab", "A", {"n", "m"})],
        map["n" := Agent("A", Some("A"), false), "m" := Agent("A", Some("A"), false)], {}),
      "b", "c", "B", "C", "n", "m")
  {
    var nodes := ["n", "m"];
    assert nodes[0] == "n" && nodes[1] == "m";
  }

  // ---------------------------------------------------------------------------------------
  // One rotation

  /** The state between two runs of one rotation to `output`, started when `start` was settled. */
  ghost predicate Underway(start: World, w: World, output: Path)
    requires WellFormed(start)
  {
    && Settled(w) && Grown(start.files, w.files) && w.agents.Keys == start.agents.Keys
    // Before the replacement file exists no node was asked to change and none has.
    && (output !in w.files ==> w.issued == {})
    && OldOrNew(w, Current(start), output)
    // An agent trusts the old authority or what is on its disk.
    && (forall n | n in w.agents && w.agents[n].served.Some? ::
          w.agents[n].served.value == Current(start) || w.agents[n].served.value == w.agents[n].disk)
    // The reference moves only once every node is on the replacement.
    && (w.config.secrets == start.config.secrets || (w.config.secrets == output && AllOnCurrent(w)))
    && (forall r | r in w.issued ::
          output in w.files && r.expected == Current(start) != r.next && r.next == w.files[output].authority)
  }

  /** A cluster where every node is on the configured authority and nothing was asked of any. */
  ghost predicate Unrotated(w: World) {
    WellFormed(w) && AllOnCurrent(w) && w.issued == {}
  }

  lemma UnrotatedSettled(w: World)
    requires Unrotated(w)
    ensures Settled(w)
  {
  }

  lemma UnderwayStep(start: World, w: World, a: Attempt, after: World, outcome: Outcome)
    requires Unrotated(start) && Underway(start, w, a.output) && Attempted(w, a, after, outcome)
    ensures Underway(start, after, a.output)
  {
    assert Current(start) == w.files[start.config.secrets].authority;
    assert !Reuses(w, a);
    OldOrNewKept(w, after, Current(start), a.output);
    if w.config.secrets == a.output {
      FinishedStays(w, a, after, outcome);
    } else if outcome == Rotated {
      AllStayOn(after);
    }
  }

  /** Once the config names the output, further runs with it change nothing. */
  lemma FinishedStays(w: World, a: Attempt, after: World, outcome: Outcome)
    requires Attempted(w, a, after, outcome) && w.config.secrets == a.output
    requires AllOnCurrent(w) && Unexpected(w.issued, Current(w))
    ensures AllOnCurrent(after)
  {
    forall n | n in w.agents ensures after.agents[n].disk == Current(w)
      && after.agents[n].served in {None, Some(Current(w))}
    {
      Stays(after.issued, n, w.agents[n], after.agents[n]);
    }
  }

  /** The disk holds the old authority or the one saved at `output`. */
  ghost predicate OldOrNew(w: World, former: Authority, output: Path) {
    forall n | n in w.agents ::
      w.agents[n].disk == former || (output in w.files && w.agents[n].disk == w.files[output].authority)
  }

  lemma OldOrNewKept(w: World, after: World, former: Authority, output: Path)
    requires OldOrNew(w, former, output) && AgentsFollow(w, after) && Grown(w.files, after.files)
    requires forall r | r in after.issued :: output in after.files && r.next == after.files[output].authority
    ensures OldOrNew(after, former, output)
  {
    NextWithin(w, after, {former} + if output in after.files then {after.files[output].authority} else {});
  }

  lemma {:induction false} UnderwayHistory(
      worlds: seq<World>, attempts: seq<Attempt>, outcomes: seq<Outcome>, output: Path, i: nat)
    requires History(worlds, attempts, outcomes) && i <= |attempts| && Unrotated(worlds[0])
    requires forall k | 0 <= k < |attempts| :: attempts[k].output == output
    ensures Underway(worlds[0], worlds[i], output)
  {
    if i > 0 {
      UnderwayHistory(worlds, attempts, outcomes, output, i - 1);
      UnderwayStep(worlds[0], worlds[i - 1], attempts[i - 1], worlds[i], outcomes[i - 1]);
    }
  }

  /** A run with nothing in its way makes the config name its output. */
  ghost predicate Finishes(w: World, output: Path, env: Env, after: World) {
    WellFormed(w) && Resumable(w, output, env) ==> after.config.secrets == output
  }

  /** Any number of runs with the same `output`, nodes also acting late on old requests: at every
      point each disk and each agent is on the old authority or the one saved replacement, the
      replacement file precedes every change, and the config names it only when all nodes run it. */
  method RotateToOutput(start: World, output: Path, envs: seq<Env>, meanwhile: seq<seq<(string, Drift)>>)
    returns (worlds: seq<World>)
    requires Unrotated(start) && |meanwhile| == |envs|
    ensures |worlds| == |envs| + 1 && worlds[0] == start
    ensures forall i | 0 <= i < |worlds| :: Underway(start, worlds[i], output)
    ensures forall i | 0 <= i < |envs| :: Finishes(worlds[i], output, envs[i], worlds[i + 1])
  {
    var attempts := seq(|envs|, i requires 0 <= i < |envs| => Attempt(output, envs[i], meanwhile[i]));
    var outcomes;
    worlds, outcomes := AnyRuns(start, attempts);
    forall i | 0 <= i < |worlds| ensures Underway(start, worlds[i], output) {
      UnderwayHistory(worlds, attempts, outcomes, output, i);
    }
    forall i | 0 <= i < |envs| ensures Finishes(worlds[i], output, envs[i], worlds[i + 1]) {
      assert Attempted(worlds[i], attempts[i], worlds[i + 1], outcomes[i]);
    }
  }

  /** Once the replacement is saved, a helpful run on idle nodes finishes what any earlier runs began. */
  lemma UnderwayResumes(start: World, w: World, output: Path, env: Env)
    requires Unrotated(start) && Underway(start, w, output) && output in w.files && Fits(w, w.files[output])
    requires Helpful(env) && Idle(w) && w.config.secrets != output && w.files[output].authority != Current(start)
    ensures Resumable(w, output, env)
  {
    assert Current(start) == w.files[start.config.secrets].authority;
  }
}
