/** The state a rotation of the management authority works on: a config file, saved secrets files,
    nodes with their agents, and every switch request ever sent. What nodes may do on their own, and
    what must hold between any two steps. */
module RotationWorld {
  import opened Results

  type Authority = string
  type Path = string

  /** A saved secrets file. */
  datatype Bundle = Bundle(cluster: string, authority: Authority, nodes: set<string>)

  /** A node: the authority on disk, the one its running agent trusts, an unfinished operation. */
  datatype Agent = Agent(disk: Authority, served: Option<Authority>, busy: bool)

  /** The ClusterConfig file; `rest` is everything in it that a rotation does not look at. */
  datatype Config = Config(cluster: string, secrets: Path, nodes: seq<string>, rest: string)

  datatype Request = Request(node: string, expected: Authority, next: Authority)

  /** `issued` records every switch request ever sent, since a node may act on one late. */
  datatype World = World(config: Config, files: map<Path, Bundle>, agents: map<string, Agent>, issued: set<Request>)

  datatype Restart = Untouched | Down | Fresh

  /** What happens to a node on its own between two workstation steps. */
  datatype Drift = Drift(late: Option<Request>, restart: Restart)

  ghost predicate WellFormed(w: World) {
    && w.config.secrets in w.files
    && (forall n | n in w.config.nodes :: n in w.agents)
    && (forall n | n in w.agents :: n in w.config.nodes)
  }

  function Current(w: World): Authority
    requires WellFormed(w)
  {
    w.files[w.config.secrets].authority
  }

  ghost predicate Saved(w: World, a: Authority) {
    exists p :: p in w.files && w.files[p].authority == a
  }

  // ---------------------------------------------------------------------------------------
  // What nodes do on their own

  /** A node acts only on a request for itself that expects what is on its disk. */
  predicate Obeys(n: string, a: Agent, r: Request) {
    r.node == n && r.expected == a.disk && !a.busy
  }

  /** What a node does by itself: act on an old request, lose its agent, restart it. */
  function Drifted(n: string, a: Agent, d: Drift, issued: set<Request>): (b: Agent) {
    var moved := if d.late.Some? && d.late.value in issued && Obeys(n, a, d.late.value)
      then a.(disk := d.late.value.next) else a;
    match d.restart
    case Untouched => moved
    case Down => moved.(served := None)
    case Fresh => moved.(served := Some(moved.disk))
  }

  function DriftNode(w: World, n: string, d: Drift): World
    requires n in w.agents
  {
    w.(agents := w.agents[n := Drifted(n, w.agents[n], d, w.issued)])
  }

  /** Nodes drift, in any order, any number of times. */
  function Drifts(w: World, steps: seq<(string, Drift)>): World
    decreases |steps|
  {
    if steps == [] then w
    else
      var (n, d) := steps[|steps| - 1];
      var before := Drifts(w, steps[..|steps| - 1]);
      if n in before.agents then DriftNode(before, n, d) else before
  }

  // ---------------------------------------------------------------------------------------
  // Frames: a disk moves along requests

  /** The requests in `path` lead a disk of `n` from one authority to another, each from where the
      one before it led. */
  ghost predicate Leads(issued: set<Request>, n: string, from: Authority, to: Authority, path: seq<Request>)
    decreases |path|
  {
    if path == [] then from == to
    else
      && path[0] in issued && path[0].node == n && path[0].expected == from
      && Leads(issued, n, path[0].next, to, path[1..])
  }

  ghost predicate Moved(issued: set<Request>, n: string, from: Authority, to: Authority) {
    exists path :: Leads(issued, n, from, to, path)
  }

  lemma MovedNot(issued: set<Request>, n: string, a: Authority)
    ensures Moved(issued, n, a, a)
  {
    assert Leads(issued, n, a, a, []);
  }

  lemma MovedOnce(issued: set<Request>, r: Request)
    requires r in issued
    ensures Moved(issued, r.node, r.expected, r.next)
  {
    assert [r][1..] == [];
    assert Leads(issued, r.node, r.expected, r.next, [r]);
  }

  lemma {:induction false} LeadsThen(
      issued: set<Request>, more: set<Request>, n: string, from: Authority, mid: Authority, to: Authority,
      p: seq<Request>, q: seq<Request>)
    requires issued <= more && Leads(issued, n, from, mid, p) && Leads(more, n, mid, to, q)
    ensures Leads(more, n, from, to, p + q)
    decreases |p|
  {
    if p == [] {
      assert p + q == q;
    } else {
      LeadsThen(issued, more, n, p[0].next, mid, to, p[1..], q);
      assert (p + q)[1..] == p[1..] + q;
    }
  }

  lemma MovedThen(
      issued: set<Request>, more: set<Request>, n: string, from: Authority, mid: Authority, to: Authority)
    requires issued <= more && Moved(issued, n, from, mid) && Moved(more, n, mid, to)
    ensures Moved(more, n, from, to)
  {
    var p: seq<Request> :| Leads(issued, n, from, mid, p);
    var q: seq<Request> :| Leads(more, n, mid, to, q);
    LeadsThen(issued, more, n, from, mid, to, p, q);
  }

  lemma MovedGrows(issued: set<Request>, more: set<Request>, n: string, from: Authority, to: Authority)
    requires issued <= more && Moved(issued, n, from, to)
    ensures Moved(more, n, from, to)
  {
    MovedNot(more, n, to);
    MovedThen(issued, more, n, from, to, to);
  }

  /** No request takes a disk of `n` out of `s`. */
  ghost predicate Closed(issued: set<Request>, n: string, s: set<Authority>) {
    forall r | r in issued && r.node == n && r.expected in s :: r.next in s
  }

  lemma {:induction false} LeadsWithin(
      issued: set<Request>, n: string, from: Authority, to: Authority, path: seq<Request>, s: set<Authority>)
    requires Leads(issued, n, from, to, path) && from in s && Closed(issued, n, s)
    ensures to in s
    decreases |path|
  {
    if path != [] {
      LeadsWithin(issued, n, path[0].next, to, path[1..], s);
    }
  }

  lemma MovedWithin(issued: set<Request>, n: string, from: Authority, to: Authority, s: set<Authority>)
    requires Moved(issued, n, from, to) && from in s && Closed(issued, n, s)
    ensures to in s
  {
    var path: seq<Request> :| Leads(issued, n, from, to, path);
    LeadsWithin(issued, n, from, to, path, s);
  }

  /** How an agent may change: its disk along requests, and it serves what it served or what was on
      its disk on the way. */
  ghost predicate Follows(issued: set<Request>, n: string, a: Agent, b: Agent) {
    && b.busy == a.busy && Moved(issued, n, a.disk, b.disk)
    && (b.served == None || b.served == a.served || Moved(issued, n, a.disk, b.served.value))
  }

  lemma FollowsThen(issued: set<Request>, more: set<Request>, n: string, a: Agent, b: Agent, c: Agent)
    requires issued <= more && Follows(issued, n, a, b) && Follows(more, n, b, c)
    ensures Follows(more, n, a, c)
  {
    MovedThen(issued, more, n, a.disk, b.disk, c.disk);
    if c.served.Some? && Moved(more, n, b.disk, c.served.value) {
      MovedThen(issued, more, n, a.disk, b.disk, c.served.value);
    } else if b.served.Some? && Moved(issued, n, a.disk, b.served.value) {
      MovedGrows(issued, more, n, a.disk, b.served.value);
    }
  }

  lemma FollowsWithin(issued: set<Request>, n: string, a: Agent, b: Agent, s: set<Authority>)
    requires Follows(issued, n, a, b) && a.disk in s && Closed(issued, n, s)
    ensures b.disk in s && (b.served == None || b.served == a.served || b.served.value in s)
  {
    MovedWithin(issued, n, a.disk, b.disk, s);
    if b.served.Some? && Moved(issued, n, a.disk, b.served.value) {
      MovedWithin(issued, n, a.disk, b.served.value, s);
    }
  }

  /** The agents change along requests; nothing is lost. */
  ghost predicate AgentsFollow(w: World, after: World) {
    && w.issued <= after.issued && after.agents.Keys == w.agents.Keys
    && (forall n | n in w.agents :: Follows(after.issued, n, w.agents[n], after.agents[n]))
  }

  /** Only agents and requests change. */
  ghost predicate Frame(w: World, after: World) {
    after.config == w.config && after.files == w.files && AgentsFollow(w, after)
  }

  lemma AgentsThen(w: World, mid: World, after: World)
    requires AgentsFollow(w, mid) && AgentsFollow(mid, after)
    ensures AgentsFollow(w, after)
  {
    forall n | n in w.agents ensures Follows(after.issued, n, w.agents[n], after.agents[n]) {
      FollowsThen(mid.issued, after.issued, n, w.agents[n], mid.agents[n], after.agents[n]);
    }
  }

  lemma AgentsSame(w: World, after: World)
    requires w.issued <= after.issued && after.agents == w.agents
    ensures AgentsFollow(w, after)
  {
    forall n | n in w.agents ensures Follows(after.issued, n, w.agents[n], after.agents[n]) {
      MovedNot(after.issued, n, w.agents[n].disk);
    }
  }

  lemma AgentsOne(w: World, n: string, b: Agent)
    requires n in w.agents && Follows(w.issued, n, w.agents[n], b)
    ensures AgentsFollow(w, w.(agents := w.agents[n := b]))
  {
    AgentsSame(w, w);
  }

  /** What no request leads out of is not left. */
  lemma AgentsWithin(w: World, after: World, s: set<Authority>)
    requires AgentsFollow(w, after)
    requires forall n | n in w.agents :: w.agents[n].disk in s && Closed(after.issued, n, s)
    ensures forall n | n in w.agents :: after.agents[n].disk in s
    ensures forall n | n in w.agents ::
      after.agents[n].served in {None, w.agents[n].served} || after.agents[n].served.value in s
  {
    forall n | n in w.agents ensures after.agents[n].disk in s
      && (after.agents[n].served in {None, w.agents[n].served} || after.agents[n].served.value in s)
    {
      FollowsWithin(after.issued, n, w.agents[n], after.agents[n], s);
    }
  }

  lemma NextWithin(w: World, after: World, s: set<Authority>)
    requires AgentsFollow(w, after)
    requires forall n | n in w.agents :: w.agents[n].disk in s
    requires forall r | r in after.issued :: r.next in s
    ensures forall n | n in w.agents :: after.agents[n].disk in s
  {
    AgentsWithin(w, after, s);
  }

  lemma {:induction false} DriftsFrame(w: World, steps: seq<(string, Drift)>)
    ensures Frame(w, Drifts(w, steps)) && Drifts(w, steps).issued == w.issued
    decreases |steps|
  {
    if steps == [] {
      AgentsSame(w, w);
    } else {
      var (n, d) := steps[|steps| - 1];
      var before := Drifts(w, steps[..|steps| - 1]);
      DriftsFrame(w, steps[..|steps| - 1]);
      if n in before.agents {
        DriftFollows(before.issued, n, before.agents[n], d);
        AgentsOne(before, n, Drifted(n, before.agents[n], d, before.issued));
        AgentsThen(w, before, Drifts(w, steps));
      }
    }
  }

  lemma DriftFollows(issued: set<Request>, n: string, a: Agent, d: Drift)
    ensures Follows(issued, n, a, Drifted(n, a, d, issued))
  {
    MovedNot(issued, n, a.disk);
    if d.late.Some? && d.late.value in issued {
      MovedOnce(issued, d.late.value);
    }
  }

  // ---------------------------------------------------------------------------------------
  // Safety

  /** An agent trusts the configured authority or what is on its disk. */
  predicate Sound(a: Agent, current: Authority) {
    a.served.Some? ==> a.served.value == current || a.served.value == a.disk
  }

  /** The nodes in front of `n` already have `a` on disk: they are switched in configuration order. */
  ghost predicate Led(w: World, n: string, a: Authority)
    requires WellFormed(w)
  {
    exists j :: 0 <= j < |w.config.nodes| && w.config.nodes[j] == n && OnDisk(w, j, a)
  }

  ghost predicate OnDisk(w: World, j: nat, a: Authority)
    requires WellFormed(w) && j <= |w.config.nodes|
  {
    forall i | 0 <= i < j :: w.agents[w.config.nodes[i]].disk == a
  }

  /** No request that was ever sent would take a node away from `a`. */
  ghost predicate Unexpected(issued: set<Request>, a: Authority) {
    forall r | r in issued :: r.expected != a
  }

  /** `a` may replace the configured authority on `n`. */
  ghost predicate Standing(w: World, n: string, a: Authority)
    requires WellFormed(w)
  {
    Saved(w, a) && Unexpected(w.issued, a) && Led(w, n, a)
  }

  /** What holds between any two steps: agents are sound, every node off the configured authority
      is on a standing replacement, and so is every request a node could still act on. */
  ghost predicate Settled(w: World) {
    && WellFormed(w)
    && (forall n | n in w.agents :: Sound(w.agents[n], Current(w)))
    && (forall n | n in w.agents && w.agents[n].disk != Current(w) :: Standing(w, n, w.agents[n].disk))
    && (forall r | r in w.issued :: r.expected != r.next && (r.expected == Current(w) ==> Standing(w, r.node, r.next)))
  }

  /** In a settled world all nodes off the configured authority share one replacement. */
  lemma OneReplacement(w: World, n: string, m: string)
    requires Settled(w) && n in w.agents && m in w.agents
    requires w.agents[n].disk != Current(w) && w.agents[m].disk != Current(w)
    ensures w.agents[n].disk == w.agents[m].disk
  {
    FirstHas(w, n, w.agents[n].disk);
    FirstHas(w, m, w.agents[m].disk);
  }

  lemma FirstHas(w: World, n: string, a: Authority)
    requires WellFormed(w) && n in w.agents && Led(w, n, a) && w.agents[n].disk == a
    ensures w.config.nodes != [] && w.agents[w.config.nodes[0]].disk == a
  {
    var j :| 0 <= j < |w.config.nodes| && w.config.nodes[j] == n && OnDisk(w, j, a);
  }

  /** A request sent earlier may still move node `n` to `a`. */
  ghost predicate LateMove(w: World, n: string, a: Authority)
    requires WellFormed(w)
  {
    exists r :: r in w.issued && r.node == n && r.expected == Current(w) && r.next == a
  }

  lemma StandingKept(w: World, n: string, b: Agent, m: string, a: Authority)
    requires WellFormed(w) && n in w.agents && Standing(w, m, a)
    requires b.disk == w.agents[n].disk || w.agents[n].disk != a
    ensures WellFormed(w.(agents := w.agents[n := b])) && Standing(w.(agents := w.agents[n := b]), m, a)
  {
    var v := w.(agents := w.agents[n := b]);
    var j :| 0 <= j < |w.config.nodes| && w.config.nodes[j] == m && OnDisk(w, j, a);
    assert OnDisk(v, j, a);
    var p :| p in w.files && w.files[p].authority == a;
    assert p in v.files && v.files[p].authority == a;
  }

  lemma StandingsKept(w: World, n: string, b: Agent)
    requires WellFormed(w) && n in w.agents
    requires b.disk != w.agents[n].disk ==> w.agents[n].disk == Current(w)
    ensures WellFormed(w.(agents := w.agents[n := b]))
    ensures forall m, a | Standing(w, m, a) && a != Current(w) :: Standing(w.(agents := w.agents[n := b]), m, a)
  {
    forall m, a | Standing(w, m, a) && a != Current(w) ensures Standing(w.(agents := w.agents[n := b]), m, a) {
      StandingKept(w, n, b, m, a);
    }
  }

  /** One agent changes, its disk at most from the configured authority to a standing replacement. */
  lemma SetAgent(w: World, n: string, b: Agent)
    requires Settled(w) && n in w.agents && Sound(b, Current(w))
    requires b.disk != w.agents[n].disk ==> w.agents[n].disk == Current(w) && Standing(w, n, b.disk)
    ensures Settled(w.(agents := w.agents[n := b]))
  {
    var v := w.(agents := w.agents[n := b]);
    StandingsKept(w, n, b);
    assert forall m | m in w.agents && m != n :: v.agents[m] == w.agents[m];
  }

  /** Drift keeps the world settled, and moves a disk only as an earlier request says. */
  lemma DriftKeeps(w: World, n: string, d: Drift)
    requires Settled(w) && n in w.agents
    ensures Settled(DriftNode(w, n, d))
    ensures DriftNode(w, n, d).agents[n].disk != w.agents[n].disk ==>
      w.agents[n].disk == Current(w) && LateMove(w, n, DriftNode(w, n, d).agents[n].disk)
  {
    SetAgent(w, n, Drifted(n, w.agents[n], d, w.issued));
  }

  lemma {:induction false} DriftsKeep(w: World, steps: seq<(string, Drift)>)
    requires Settled(w)
    ensures Settled(Drifts(w, steps))
    decreases |steps|
  {
    if steps != [] {
      var (n, d) := steps[|steps| - 1];
      var before := Drifts(w, steps[..|steps| - 1]);
      DriftsKeep(w, steps[..|steps| - 1]);
      if n in before.agents {
        DriftKeeps(before, n, d);
      }
    }
  }

  /** A disk that no request expects stays, and so does an agent on it. */
  lemma Stays(issued: set<Request>, n: string, a: Agent, b: Agent)
    requires Follows(issued, n, a, b) && Unexpected(issued, a.disk)
    ensures b.disk == a.disk && (b.served == None || b.served == a.served || b.served == Some(a.disk))
  {
    FollowsWithin(issued, n, a, b, {a.disk});
  }

  /** In a settled world a disk moves at most once: from the configured authority, as an earlier
      request says or to the authority of the new ones. */
  lemma SettledMoves(w: World, after: World, n: string, next: Authority)
    requires Settled(w) && n in w.agents && AgentsFollow(w, after) && Sends(w, after, next)
    requires Unexpected(w.issued, next)
    ensures after.agents[n].disk != w.agents[n].disk ==>
      && w.agents[n].disk == Current(w)
      && (LateMove(w, n, after.agents[n].disk) || (after.issued != w.issued && after.agents[n].disk == next))
  {
    var a, b := w.agents[n].disk, after.agents[n].disk;
    if b != a {
      var path: seq<Request> :| Leads(after.issued, n, a, b, path);
      assert path[0] in after.issued;
      assert path[0].next != Current(w) && Unexpected(after.issued, path[0].next);
      LeadsWithin(after.issued, n, path[0].next, b, path[1..], {path[0].next});
    }
  }

  /** Every new request takes a node from the configured authority to `next`. */
  ghost predicate Sends(w: World, after: World, next: Authority)
    requires WellFormed(w)
  {
    forall r | r in after.issued && r !in w.issued :: r.expected == Current(w) && r.next == next && r.expected != r.next
  }
}
