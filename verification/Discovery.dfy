/** The installer discovery pool of katlctl: a producer, up to 64 workers, a closer and a collector
    over one unbuffered and one buffered channel, with a timeout that may fire at any point. Every
    interleaving is a sequence of the actions below. */
module Discovery {
  import opened Order

  datatype Found = Found(endpoint: string, status: string)

  datatype Worker = Waiting | Probing(endpoint: string) | Sending(result: Found) | Exited

  datatype Collector = Receiving | AwaitingDone | Returned

  /** `found` and `failed` record every probe that has returned, in order of return. */
  datatype Pool = Pool(
    candidates: seq<string>, sent: nat, jobsClosed: bool, timedOut: bool,
    workers: seq<Worker>, results: seq<Found>, resultsClosed: bool, doneClosed: bool,
    collector: Collector, installers: seq<Found>, found: seq<Found>, failed: seq<string>)

  datatype Action =
    | Timeout
    | HandOff(w: nat) | Abandon | CloseJobs
    | WorkerExits(w: nat) | ProbeFinds(w: nat, status: string) | ProbeFails(w: nat) | SendResult(w: nat)
    | CloseResults | CloseDone
    | Collect | SeeClosed | Return

  function Start(candidates: seq<string>): Pool {
    var n := if |candidates| < 64 then |candidates| else 64;
    Pool(candidates, 0, false, false, seq(n, _ => Waiting), [], false, false, Receiving, [], [], [])
  }

  predicate Enabled(p: Pool, a: Action) {
    match a
    case Timeout => !p.timedOut
    case HandOff(w) => !p.jobsClosed && p.sent < |p.candidates| && w < |p.workers| && p.workers[w] == Waiting
    case Abandon => !p.jobsClosed && p.sent < |p.candidates| && p.timedOut
    case CloseJobs => !p.jobsClosed && p.sent >= |p.candidates|
    case WorkerExits(w) => w < |p.workers| && p.workers[w] == Waiting && p.jobsClosed
    case ProbeFinds(w, _) => w < |p.workers| && p.workers[w].Probing?
    case ProbeFails(w) => w < |p.workers| && p.workers[w].Probing?
    case SendResult(w) => w < |p.workers| && p.workers[w].Sending? && |p.results| < |p.candidates|
    case CloseResults => !p.resultsClosed && AllExited(p)
    case CloseDone => p.resultsClosed && !p.doneClosed
    case Collect => p.collector == Receiving && p.results != []
    case SeeClosed => p.collector == Receiving && p.results == [] && p.resultsClosed
    case Return => p.collector == AwaitingDone && p.doneClosed
  }

  predicate AllExited(p: Pool) {
    forall i | 0 <= i < |p.workers| :: p.workers[i] == Exited
  }

  function Apply(p: Pool, a: Action): Pool
    requires Enabled(p, a)
  {
    match a
    case Timeout => p.(timedOut := true)
    case HandOff(w) => p.(sent := p.sent + 1, workers := p.workers[w := Probing(p.candidates[p.sent])])
    case Abandon => p.(jobsClosed := true)
    case CloseJobs => p.(jobsClosed := true)
    case WorkerExits(w) => p.(workers := p.workers[w := Exited])
    case ProbeFinds(w, status) =>
      var r := Found(p.workers[w].endpoint, status);
      p.(workers := p.workers[w := Sending(r)], found := p.found + [r])
    case ProbeFails(w) => p.(workers := p.workers[w := Waiting], failed := p.failed + [p.workers[w].endpoint])
    case SendResult(w) => p.(workers := p.workers[w := Waiting], results := p.results + [p.workers[w].result])
    case CloseResults => p.(resultsClosed := true)
    case CloseDone => p.(doneClosed := true)
    case Collect => p.(results := p.results[1..], installers := p.installers + [p.results[0]])
    case SeeClosed => p.(collector := AwaitingDone)
    case Return => p.(collector := Returned)
  }

  function EndpointOf(f: Found): string {
    f.endpoint
  }

  /** What `discoverInstallers` returns: the collected results sorted by endpoint. */
  function Answer(p: Pool): seq<Found> {
    SortBy(p.installers, EndpointOf)
  }

  /** A run: each action enabled where it happens. */
  ghost predicate Runs(p: Pool, run: seq<Action>, q: Pool)
    decreases |run|
  {
    if run == [] then q == p
    else Enabled(p, run[0]) && Runs(Apply(p, run[0]), run[1..], q)
  }

  // ---------------------------------------------------------------------------------------
  // Accounting

  ghost function Sum<T>(s: seq<T>, f: T -> nat): nat {
    if s == [] then 0 else f(s[0]) + Sum(s[1..], f)
  }

  lemma {:induction false} SumUpdate<T>(s: seq<T>, i: nat, x: T, f: T -> nat)
    requires i < |s|
    ensures Sum(s[i := x], f) + f(s[i]) == Sum(s, f) + f(x)
  {
    if i > 0 {
      SumUpdate(s[1..], i - 1, x, f);
      assert s[i := x][1..] == s[1..][i - 1 := x];
    } else {
      assert s[i := x][1..] == s[1..];
    }
  }

  lemma {:induction false} SumSnoc<T>(s: seq<T>, x: T, f: T -> nat)
    ensures Sum(s + [x], f) == Sum(s, f) + f(x)
  {
    if s == [] {
      assert s + [x] == [x];
    } else {
      assert (s + [x])[1..] == s[1..] + [x];
      SumSnoc(s[1..], x, f);
    }
  }

  lemma {:induction false} SumPositive<T>(s: seq<T>, i: nat, f: T -> nat)
    requires i < |s| && f(s[i]) > 0
    ensures Sum(s, f) > 0
  {
    if i > 0 {
      SumPositive(s[1..], i - 1, f);
    }
  }

  lemma {:induction false} SumZero<T>(s: seq<T>, f: T -> nat)
    requires forall x | x in s :: f(x) == 0
    ensures Sum(s, f) == 0
  {
    if s != [] {
      SumZero(s[1..], f);
    }
  }

  ghost function One(b: bool): nat {
    if b then 1 else 0
  }

  ghost function Probes(e: string): Worker -> nat {
    (w: Worker) => One(w == Probing(e))
  }

  ghost function Sends(r: Found): Worker -> nat {
    (w: Worker) => One(w == Sending(r))
  }

  ghost function IsProbing(): Worker -> nat {
    (w: Worker) => One(w.Probing?)
  }

  ghost function IsSending(): Worker -> nat {
    (w: Worker) => One(w.Sending?)
  }

  ghost function At(e: string): Found -> nat {
    (f: Found) => One(f.endpoint == e)
  }

  /** Each endpoint handed out is in a running probe, found or failed, as often as it was handed out. */
  ghost predicate EndpointAccounted(p: Pool, e: string)
    requires p.sent <= |p.candidates|
  {
    multiset(p.candidates[..p.sent])[e] == Sum(p.workers, Probes(e)) + Sum(p.found, At(e)) + multiset(p.failed)[e]
  }

  /** Each result found is with its worker, in the channel or collected. */
  ghost predicate ResultAccounted(p: Pool, r: Found) {
    multiset(p.found)[r] == Sum(p.workers, Sends(r)) + multiset(p.results)[r] + multiset(p.installers)[r]
  }

  ghost predicate Counted(p: Pool) {
    ProbesCounted(p) && ResultsCounted(p)
  }

  ghost predicate ProbesCounted(p: Pool) {
    p.sent == Sum(p.workers, IsProbing()) + |p.found| + |p.failed|
  }

  ghost predicate ResultsCounted(p: Pool) {
    |p.found| == Sum(p.workers, IsSending()) + |p.results| + |p.installers|
  }

  /** Order of closing and returning. */
  ghost predicate Ordered(p: Pool) {
    Handed(p) && Exits(p) && Closes(p)
  }

  ghost predicate Handed(p: Pool) {
    && p.sent <= |p.candidates| && |p.workers| == (if |p.candidates| < 64 then |p.candidates| else 64)
    && (p.jobsClosed ==> p.timedOut || p.sent == |p.candidates|)
  }

  ghost predicate Exits(p: Pool) {
    && (forall i | 0 <= i < |p.workers| && p.workers[i] == Exited :: p.jobsClosed)
    && (p.resultsClosed ==> AllExited(p))
  }

  ghost predicate Closes(p: Pool) {
    && (p.doneClosed ==> p.resultsClosed)
    && (p.collector != Receiving ==> p.resultsClosed && p.results == [])
    && (p.collector == Returned ==> p.doneClosed)
  }

  /** The invariant, as far as it concerns one endpoint and one result. */
  ghost predicate Inv(p: Pool, e: string, r: Found) {
    Ordered(p) && Counted(p) && EndpointAccounted(p, e) && ResultAccounted(p, r)
  }

  lemma StartInv(candidates: seq<string>, e: string, r: Found)
    ensures Inv(Start(candidates), e, r)
  {
    var p := Start(candidates);
    SumZero(p.workers, Probes(e));
    SumZero(p.workers, Sends(r));
    SumZero(p.workers, IsProbing());
    SumZero(p.workers, IsSending());
    assert p.candidates[..0] == [];
  }

  /** The worker an action concerns, if any. */
  ghost function Acting(a: Action): int {
    match a
    case HandOff(w) => w
    case WorkerExits(w) => w
    case ProbeFinds(w, _) => w
    case ProbeFails(w) => w
    case SendResult(w) => w
    case _ => -1
  }

  lemma WorkerSums(p: Pool, a: Action, f: Worker -> nat)
    requires Enabled(p, a)
    ensures Acting(a) < 0 ==> Apply(p, a).workers == p.workers
    ensures Acting(a) >= 0 ==>
      && Acting(a) < |p.workers|
      && Sum(Apply(p, a).workers, f) + f(p.workers[Acting(a)]) == Sum(p.workers, f) + f(Apply(p, a).workers[Acting(a)])
  {
    if Acting(a) >= 0 {
      SumUpdate(p.workers, Acting(a), Apply(p, a).workers[Acting(a)], f);
    }
  }

  lemma CountedStep(p: Pool, a: Action)
    requires Counted(p) && Enabled(p, a)
    ensures Counted(Apply(p, a))
  {
    ProbesCountedStep(p, a);
    ResultsCountedStep(p, a);
  }

  lemma ProbesCountedStep(p: Pool, a: Action)
    requires ProbesCounted(p) && Enabled(p, a)
    ensures ProbesCounted(Apply(p, a))
  {
    WorkerSums(p, a, IsProbing());
  }

  lemma ResultsCountedStep(p: Pool, a: Action)
    requires ResultsCounted(p) && Enabled(p, a)
    ensures ResultsCounted(Apply(p, a))
  {
    WorkerSums(p, a, IsSending());
  }

  lemma EndpointStep(p: Pool, a: Action, e: string)
    requires Ordered(p) && EndpointAccounted(p, e) && Enabled(p, a) && Apply(p, a).sent <= |p.candidates|
    ensures EndpointAccounted(Apply(p, a), e)
  {
    match a
    case HandOff(w) => EndpointHandedOut(p, w, e);
    case ProbeFinds(w, status) => EndpointFound(p, w, status, e);
    case ProbeFails(w) => EndpointFailed(p, w, e);
    case _ => EndpointUntouched(p, a, e);
  }

  lemma EndpointHandedOut(p: Pool, w: nat, e: string)
    requires p.sent <= |p.candidates| && EndpointAccounted(p, e) && Enabled(p, HandOff(w))
    ensures EndpointAccounted(Apply(p, HandOff(w)), e)
  {
    WorkerSums(p, HandOff(w), Probes(e));
    assert p.candidates[..p.sent + 1] == p.candidates[..p.sent] + [p.candidates[p.sent]];
  }

  lemma EndpointFound(p: Pool, w: nat, status: string, e: string)
    requires p.sent <= |p.candidates| && EndpointAccounted(p, e) && Enabled(p, ProbeFinds(w, status))
    ensures EndpointAccounted(Apply(p, ProbeFinds(w, status)), e)
  {
    WorkerSums(p, ProbeFinds(w, status), Probes(e));
    SumSnoc(p.found, Found(p.workers[w].endpoint, status), At(e));
  }

  lemma EndpointFailed(p: Pool, w: nat, e: string)
    requires p.sent <= |p.candidates| && EndpointAccounted(p, e) && Enabled(p, ProbeFails(w))
    ensures EndpointAccounted(Apply(p, ProbeFails(w)), e)
  {
    WorkerSums(p, ProbeFails(w), Probes(e));
  }

  lemma EndpointUntouched(p: Pool, a: Action, e: string)
    requires p.sent <= |p.candidates| && EndpointAccounted(p, e) && Enabled(p, a)
    requires !a.HandOff? && !a.ProbeFinds? && !a.ProbeFails?
    ensures EndpointAccounted(Apply(p, a), e)
  {
    WorkerSums(p, a, Probes(e));
  }

  lemma ResultStep(p: Pool, a: Action, r: Found)
    requires ResultAccounted(p, r) && Enabled(p, a)
    ensures ResultAccounted(Apply(p, a), r)
  {
    match a
    case ProbeFinds(w, status) => ResultFound(p, w, status, r);
    case SendResult(w) => ResultSent(p, w, r);
    case Collect => CollectMoves(p, r);
    case _ => ResultUntouched(p, a, r);
  }

  lemma ResultUntouched(p: Pool, a: Action, r: Found)
    requires ResultAccounted(p, r) && Enabled(p, a) && !a.ProbeFinds? && !a.SendResult? && !a.Collect?
    ensures ResultAccounted(Apply(p, a), r)
  {
    var q := Apply(p, a);
    assert q.found == p.found && q.results == p.results && q.installers == p.installers;
    WorkerSums(p, a, Sends(r));
  }

  lemma ResultFound(p: Pool, w: nat, status: string, r: Found)
    requires ResultAccounted(p, r) && Enabled(p, ProbeFinds(w, status))
    ensures ResultAccounted(Apply(p, ProbeFinds(w, status)), r)
  {
    WorkerSums(p, ProbeFinds(w, status), Sends(r));
    CountSnoc(p.found, Found(p.workers[w].endpoint, status), r);
  }

  lemma ResultSent(p: Pool, w: nat, r: Found)
    requires ResultAccounted(p, r) && Enabled(p, SendResult(w))
    ensures ResultAccounted(Apply(p, SendResult(w)), r)
  {
    WorkerSums(p, SendResult(w), Sends(r));
    CountSnoc(p.results, p.workers[w].result, r);
  }

  lemma CountSnoc(s: seq<Found>, x: Found, r: Found)
    ensures multiset(s + [x])[r] == multiset(s)[r] + One(x == r)
  {
  }

  lemma CollectMoves(p: Pool, r: Found)
    requires Enabled(p, Collect)
    ensures multiset(p.results)[r] + multiset(p.installers)[r]
         == multiset(Apply(p, Collect).results)[r] + multiset(Apply(p, Collect).installers)[r]
    ensures ResultAccounted(p, r) ==> ResultAccounted(Apply(p, Collect), r)
  {
    assert p.results == [p.results[0]] + p.results[1..];
    CountSnoc(p.installers, p.results[0], r);
  }

  lemma OrderedStep(p: Pool, a: Action)
    requires Ordered(p) && Enabled(p, a)
    ensures Ordered(Apply(p, a))
  {
    ExitsStep(p, a);
    ClosesStep(p, a);
  }

  lemma ExitsStep(p: Pool, a: Action)
    requires Exits(p) && Enabled(p, a)
    ensures Exits(Apply(p, a))
  {
    var q := Apply(p, a);
    assert Acting(a) < 0 ==> q.workers == p.workers;
    assert Acting(a) >= 0 ==> forall i | 0 <= i < |p.workers| && i != Acting(a) :: q.workers[i] == p.workers[i];
  }

  lemma ClosesStep(p: Pool, a: Action)
    requires Exits(p) && Closes(p) && Enabled(p, a)
    ensures Closes(Apply(p, a))
  {
  }

  lemma InvStep(p: Pool, a: Action, e: string, r: Found)
    requires Inv(p, e, r) && Enabled(p, a)
    ensures Inv(Apply(p, a), e, r) && Apply(p, a).candidates == p.candidates
  {
    OrderedStep(p, a);
    CountedStep(p, a);
    EndpointStep(p, a, e);
    ResultStep(p, a, r);
  }

  /** The invariant holds in every reachable state. */
  lemma {:induction false} Reachable(p: Pool, run: seq<Action>, q: Pool, e: string, r: Found)
    requires Inv(p, e, r) && Runs(p, run, q)
    ensures Inv(q, e, r) && q.candidates == p.candidates
    decreases |run|
  {
    if run != [] {
      InvStep(p, run[0], e, r);
      Reachable(Apply(p, run[0]), run[1..], q, e, r);
    }
  }

  lemma Reached(candidates: seq<string>, run: seq<Action>, q: Pool, e: string, r: Found)
    requires Runs(Start(candidates), run, q)
    ensures Inv(q, e, r) && q.candidates == candidates
  {
    StartInv(candidates, e, r);
    Reachable(Start(candidates), run, q, e, r);
  }

  // ---------------------------------------------------------------------------------------
  // What every run guarantees

  /** In every reachable state, with the timeout at any point, a worker with a result never blocks on
      the channel nor finds it closed. */
  lemma NeverBlocks(candidates: seq<string>, run: seq<Action>, q: Pool, w: nat)
    requires Runs(Start(candidates), run, q) && w < |q.workers| && q.workers[w].Sending?
    ensures Enabled(q, SendResult(w)) && !q.resultsClosed
  {
    Reached(candidates, run, q, "", Found("", ""));
    SumPositive(q.workers, w, IsSending());
  }

  /** Distinct candidates are handed out once each: at any moment an endpoint is in at most one of a
      running probe, the found results and the failures. */
  lemma ProbedAtMostOnce(candidates: seq<string>, run: seq<Action>, q: Pool, e: string)
    requires forall i, j | 0 <= i < j < |candidates| :: candidates[i] != candidates[j]
    requires Runs(Start(candidates), run, q)
    ensures Sum(q.workers, Probes(e)) + Sum(q.found, At(e)) + multiset(q.failed)[e] <= 1
  {
    Reached(candidates, run, q, e, Found("", ""));
    DistinctOnce(candidates[..q.sent], e);
  }

  lemma {:induction false} DistinctOnce(s: seq<string>, e: string)
    requires forall i, j | 0 <= i < j < |s| :: s[i] != s[j]
    ensures multiset(s)[e] <= 1
  {
    if s != [] {
      assert s == [s[0]] + s[1..];
      DistinctOnce(s[1..], e);
      assert s[0] !in s[1..];
    }
  }

  /** The timeout has fired exactly if the run has it. */
  lemma {:induction false} TimedOut(p: Pool, run: seq<Action>, q: Pool)
    requires Runs(p, run, q)
    ensures q.timedOut <==> p.timedOut || Timeout in run
    decreases |run|
  {
    if run != [] {
      TimedOut(Apply(p, run[0]), run[1..], q);
      assert run == [run[0]] + run[1..];
    }
  }

  /** When the call returns, the list is exactly the successful probes, sorted by endpoint; every
      worker has exited; and unless the timeout fired every candidate was probed as often as it is
      listed, with the outcome recorded. */
  lemma ReturnsExactlyTheFound(candidates: seq<string>, run: seq<Action>, q: Pool, e: string)
    requires Runs(Start(candidates), run, q) && q.collector.Returned?
    ensures multiset(Answer(q)) == multiset(q.found) && SortedBy(Answer(q), EndpointOf)
    ensures AllExited(q) && q.resultsClosed && q.doneClosed
    ensures Timeout !in run ==> multiset(candidates)[e] == Sum(q.found, At(e)) + multiset(q.failed)[e]
  {
    EverythingCollected(candidates, run, q);
    TimedOut(Start(candidates), run, q);
    Reached(candidates, run, q, e, Found("", ""));
    if !q.timedOut {
      AllHandedOut(q);
      SumZero(q.workers, Probes(e));
      assert q.candidates[..q.sent] == candidates;
    }
  }

  lemma EverythingCollected(candidates: seq<string>, run: seq<Action>, q: Pool)
    requires Runs(Start(candidates), run, q) && q.collector.Returned?
    ensures multiset(q.installers) == multiset(q.found)
  {
    forall r ensures multiset(q.installers)[r] == multiset(q.found)[r] {
      Reached(candidates, run, q, "", r);
      SumZero(q.workers, Sends(r));
    }
  }

  lemma AllHandedOut(q: Pool)
    requires Ordered(q) && q.resultsClosed && !q.timedOut
    ensures q.sent == |q.candidates|
  {
    if q.candidates != [] {
      assert q.workers[0] == Exited;
    }
  }

  /** As long as probes return the pool is never stuck before it has returned. */
  lemma NeverStuck(candidates: seq<string>, run: seq<Action>, q: Pool) returns (a: Action)
    requires Runs(Start(candidates), run, q) && !q.collector.Returned?
    ensures Enabled(q, a) && a != Timeout
  {
    if w :| 0 <= w < |q.workers| && q.workers[w].Sending? {
      NeverBlocks(candidates, run, q, w);
      return SendResult(w);
    }
    Reached(candidates, run, q, "", Found("", ""));
    a := NextAction(q);
  }

  lemma NextAction(q: Pool) returns (a: Action)
    requires Ordered(q) && !q.collector.Returned?
    requires forall i | 0 <= i < |q.workers| :: !q.workers[i].Sending?
    ensures Enabled(q, a) && a != Timeout
  {
    if w :| 0 <= w < |q.workers| && q.workers[w].Probing? {
      return ProbeFails(w);
    }
    if q.collector == Receiving && q.results != [] {
      return Collect;
    }
    if !q.jobsClosed {
      if q.sent >= |q.candidates| {
        return CloseJobs;
      }
      return HandOff(0);
    }
    if w :| 0 <= w < |q.workers| && q.workers[w] == Waiting {
      return WorkerExits(w);
    }
    if !q.resultsClosed {
      return CloseResults;
    }
    if !q.doneClosed {
      return CloseDone;
    }
    return if q.collector == Receiving then SeeClosed else Return;
  }

  // ---------------------------------------------------------------------------------------
  // Every run ends

  ghost function Weight(w: Worker): nat {
    match w
    case Waiting => 1
    case Probing(_) => 4
    case Sending(_) => 3
    case Exited => 0
  }

  /** How many actions are still possible at most. */
  ghost function Left(p: Pool): nat
    requires p.sent <= |p.candidates|
  {
    4 * (|p.candidates| - p.sent) + Sum(p.workers, Weight) + |p.results|
    + One(!p.timedOut) + One(!p.jobsClosed) + One(!p.resultsClosed) + One(!p.doneClosed)
    + (match p.collector case Receiving => 2 case AwaitingDone => 1 case Returned => 0)
  }

  lemma WorkerStepUsesUp(p: Pool, a: Action)
    requires p.sent <= |p.candidates| && Enabled(p, a) && Acting(a) >= 0
    ensures Apply(p, a).sent <= |p.candidates| && Left(Apply(p, a)) < Left(p)
  {
    WorkerSums(p, a, Weight);
    assert Weight(Waiting) == 1 && Weight(Exited) == 0;
  }

  lemma StepUsesUp(p: Pool, a: Action)
    requires p.sent <= |p.candidates| && Enabled(p, a)
    ensures Apply(p, a).sent <= |p.candidates| && Left(Apply(p, a)) < Left(p)
  {
    if Acting(a) >= 0 {
      WorkerStepUsesUp(p, a);
    } else {
      assert Apply(p, a).workers == p.workers;
    }
  }

  /** No schedule runs for ever: a run has at most as many actions as were left at its start, so with
      `NeverStuck` every schedule that keeps going returns. */
  lemma {:induction false} RunsEnd(p: Pool, run: seq<Action>, q: Pool)
    requires p.sent <= |p.candidates| && Runs(p, run, q)
    ensures q.sent <= |q.candidates| && |run| + Left(q) <= Left(p)
    decreases |run|
  {
    if run != [] {
      StepUsesUp(p, run[0]);
      RunsEnd(Apply(p, run[0]), run[1..], q);
    }
  }
}
