/** Planning the removal of one etcd member so that quorum survives, and the coordinator it is
    planned through. The status comes from the coordinator's agent. */
module Etcd {
  import opened Results
  import opened Text
  import opened Inventory

  const WORD: nat := 0x1_0000_0000

  type uint32 = x: int | 0 <= x < 0x1_0000_0000

  datatype Member = Member(id: string, name: string, peers: seq<string>, healthy: bool)

  datatype Status = Status(members: seq<Member>, healthyMembers: uint32, quorum: uint32, localId: string)

  /** The node to remove; `confirmed` is the operator's --member-id, blank if not given. */
  datatype Request = Request(name: string, peer: string, confirmed: string, allowAbsent: bool)

  datatype Decision = Remove(member: Member) | AlreadyGone

  datatype Refusal = IdentityMismatch | NotPresent | WrongMemberId | OwnMember | BelowQuorum | WouldLoseQuorum

  // ---------------------------------------------------------------------------------------
  // The decision

  predicate Touches(m: Member, name: string, peer: string) {
    m.name == name || peer in m.peers
  }

  predicate Is(m: Member, name: string, peer: string) {
    m.name == name && peer in m.peers
  }

  ghost predicate Absent(ms: seq<Member>, name: string, peer: string) {
    forall m | m in ms :: !Touches(m, name, peer)
  }

  /** The first member that carries the name or the peer URL carries both. */
  ghost predicate Identified(ms: seq<Member>, name: string, peer: string, m: Member) {
    exists i :: 0 <= i < |ms| && ms[i] == m && Is(m, name, peer) && forall j | 0 <= j < i :: !Touches(ms[j], name, peer)
  }

  function Lower(s: string): string {
    seq(|s|, i requires 0 <= i < |s| => if 'A' <= s[i] <= 'Z' then s[i] - 'A' + 'a' else s[i])
  }

  predicate SameLetter(a: char, b: char) {
    || a == b
    || ('A' <= a <= 'Z' && b == a - 'A' + 'a')
    || ('A' <= b <= 'Z' && a == b - 'A' + 'a')
  }

  /** Equal but for the case of ASCII letters. */
  ghost predicate EqualFold(a: string, b: string) {
    |a| == |b| && forall i | 0 <= i < |a| :: SameLetter(a[i], b[i])
  }

  lemma LowerFolds(a: string, b: string)
    ensures Lower(a) == Lower(b) <==> EqualFold(a, b)
  {
    if Lower(a) == Lower(b) {
      assert |a| == |Lower(a)| == |Lower(b)| == |b|;
      forall i | 0 <= i < |a| ensures SameLetter(a[i], b[i]) {
        assert Lower(a)[i] == Lower(b)[i];
      }
    }
    if EqualFold(a, b) {
      assert forall i | 0 <= i < |a| :: SameLetter(a[i], b[i]) ==> Lower(a)[i] == Lower(b)[i];
      assert Lower(a) == Lower(b);
    }
  }

  /** Unsigned 32-bit decrement. */
  function Decrement(x: uint32): uint32 {
    if x == 0 then 0xFFFF_FFFF else x - 1
  }

  function HealthySurvivors(s: Status, m: Member): uint32 {
    if m.healthy then Decrement(s.healthyMembers) else s.healthyMembers
  }

  function QuorumOf(n: nat): nat {
    n / 2 + 1
  }

  /** Why a member that was identified may not be removed. */
  function Objection(s: Status, r: Request, m: Member): Option<Refusal>
    requires s.members != []
  {
    if r.confirmed != "" && Lower(r.confirmed) != Lower(m.id) then Some(WrongMemberId)
    else if m.id == s.localId then Some(OwnMember)
    else if s.healthyMembers < s.quorum then Some(BelowQuorum)
    else if HealthySurvivors(s, m) < QuorumOf(|s.members| - 1) % WORD then Some(WouldLoseQuorum)
    else None
  }

  ghost predicate Accepts(s: Status, r: Request, m: Member) {
    s.members != [] && Identified(s.members, r.name, r.peer, m) && Objection(s, r, m).None?
  }

  ghost predicate Gone(s: Status, r: Request) {
    r.allowAbsent && Absent(s.members, r.name, r.peer) && s.healthyMembers >= s.quorum
  }

  /** The search and the guards. */
  method PlanRemoval(s: Status, r: Request) returns (d: Result<Decision, Refusal>)
    ensures Absent(s.members, r.name, r.peer) ==>
      d == if !r.allowAbsent then Err(NotPresent)
           else if s.healthyMembers < s.quorum then Err(BelowQuorum) else Ok(AlreadyGone)
    ensures forall m | Identified(s.members, r.name, r.peer, m) ::
      d == if Objection(s, r, m).Some? then Err(Objection(s, r, m).value) else Ok(Remove(m))
    ensures !Absent(s.members, r.name, r.peer) && (forall m :: !Identified(s.members, r.name, r.peer, m)) ==>
      d == Err(IdentityMismatch)
    ensures forall m :: d == Ok(Remove(m)) <==> Accepts(s, r, m)
    ensures forall m | d == Ok(Remove(m)) && r.confirmed != "" :: EqualFold(r.confirmed, m.id)
    ensures d == Ok(AlreadyGone) <==> Gone(s, r)
  {
    var member: Option<Member> := None;
    for i := 0 to |s.members|
      invariant forall j | 0 <= j < i :: !Touches(s.members[j], r.name, r.peer)
      invariant member.None?
    {
      var candidate := s.members[i];
      if candidate.name == r.name && r.peer in candidate.peers {
        member := Some(candidate);
        OneIdentified(s.members, r.name, r.peer, i);
        assert s.members[i] in s.members;
        break;
      }
      if candidate.name == r.name || r.peer in candidate.peers {
        assert s.members[i] in s.members;
        NoneIdentified(s.members, r.name, r.peer, i);
        return Err(IdentityMismatch);
      }
    }
    if member.None? {
      if r.allowAbsent {
        return if s.healthyMembers < s.quorum then Err(BelowQuorum) else Ok(AlreadyGone);
      }
      return Err(NotPresent);
    }
    var m := member.value;
    LowerFolds(r.confirmed, m.id);
    if r.confirmed != "" && Lower(r.confirmed) != Lower(m.id) {
      return Err(WrongMemberId);
    }
    if m.id == s.localId {
      return Err(OwnMember);
    }
    if s.healthyMembers < s.quorum {
      return Err(BelowQuorum);
    }
    var survivors := s.healthyMembers;
    if m.healthy {
      survivors := Decrement(survivors);
    }
    var postQuorum := ((|s.members| - 1) / 2 + 1) % WORD;
    if survivors < postQuorum {
      return Err(WouldLoseQuorum);
    }
    return Ok(Remove(m));
  }

  lemma OneIdentified(ms: seq<Member>, name: string, peer: string, i: nat)
    requires i < |ms| && Is(ms[i], name, peer) && forall j | 0 <= j < i :: !Touches(ms[j], name, peer)
    ensures Identified(ms, name, peer, ms[i])
    ensures forall m | Identified(ms, name, peer, m) :: m == ms[i]
  {
    forall m | Identified(ms, name, peer, m) ensures m == ms[i] {
      var k :| 0 <= k < |ms| && ms[k] == m && Is(m, name, peer) && forall j | 0 <= j < k :: !Touches(ms[j], name, peer);
      assert k == i;
    }
  }

  lemma NoneIdentified(ms: seq<Member>, name: string, peer: string, i: nat)
    requires i < |ms| && Touches(ms[i], name, peer) && !Is(ms[i], name, peer)
    requires forall j | 0 <= j < i :: !Touches(ms[j], name, peer)
    ensures forall m :: !Identified(ms, name, peer, m)
  {
    assert forall k | 0 <= k < |ms| && Is(ms[k], name, peer) :: Touches(ms[k], name, peer) && k > i;
  }

  // ---------------------------------------------------------------------------------------
  // One removal

  ghost function HealthyCount(ms: seq<Member>): (n: nat)
    ensures n <= |ms|
  {
    if ms == [] then 0 else (if ms[0].healthy then 1 else 0) + HealthyCount(ms[1..])
  }

  ghost predicate DistinctIds(ms: seq<Member>) {
    forall i, j | 0 <= i < j < |ms| :: ms[i].id != ms[j].id
  }

  /** A status whose counters agree with its member list. */
  ghost predicate Consistent(s: Status) {
    && DistinctIds(s.members) && s.members != [] && |s.members| < WORD
    && s.healthyMembers == HealthyCount(s.members) && s.quorum == QuorumOf(|s.members|)
  }

  function Without(ms: seq<Member>, id: string): seq<Member> {
    if ms == [] then []
    else (if ms[0].id == id then [] else [ms[0]]) + Without(ms[1..], id)
  }

  lemma {:induction false} WithoutNone(ms: seq<Member>, id: string)
    requires forall m | m in ms :: m.id != id
    ensures Without(ms, id) == ms
  {
    if ms != [] {
      WithoutNone(ms[1..], id);
    }
  }

  lemma {:induction false} WithoutOne(ms: seq<Member>, m: Member)
    requires DistinctIds(ms) && m in ms
    ensures |Without(ms, m.id)| == |ms| - 1
    ensures HealthyCount(Without(ms, m.id)) == HealthyCount(ms) - (if m.healthy then 1 else 0)
  {
    var rest := ms[1..];
    if ms[0].id == m.id {
      WithoutNone(rest, m.id);
      assert [] + rest == rest;
    } else {
      WithoutOne(rest, m);
      assert Without(ms, m.id)[1..] == Without(rest, m.id);
    }
  }

  lemma {:induction false} WithoutMembers(ms: seq<Member>, id: string)
    ensures forall m :: m in Without(ms, id) <==> m in ms && m.id != id
    ensures DistinctIds(ms) ==> DistinctIds(Without(ms, id))
  {
    if ms != [] {
      WithoutMembers(ms[1..], id);
      var w := Without(ms[1..], id);
      if DistinctIds(ms) {
        assert forall m | m in w :: m.id != ms[0].id;
        assert forall j | 0 <= j < |w| :: w[j] in w;
      }
    }
  }

  /** An accepted removal never wraps, never takes the coordinator's own member or the last one, and
      leaves healthy members that are a strict majority of what remains. */
  lemma RemovalKeepsQuorum(s: Status, r: Request, m: Member)
    requires Consistent(s) && m in s.members && Objection(s, r, m).None?
    ensures var rest := Without(s.members, m.id);
      && HealthySurvivors(s, m) == HealthyCount(rest)
      && |rest| == |s.members| - 1 >= 1
      && 2 * HealthyCount(rest) > |rest|
      && m.id != s.localId
  {
    WithoutOne(s.members, m);
    if m.healthy {
      HealthyMember(s.members, m);
    }
  }

  /** For a status whose counters agree with its members nothing else is asked: a member is removed exactly
      if it is the confirmed one, not the coordinator's own, and healthy majorities stand before and after. */
  lemma ObjectionExact(s: Status, r: Request, m: Member)
    requires Consistent(s) && m in s.members
    ensures Objection(s, r, m).None? <==>
      && (r.confirmed == "" || EqualFold(r.confirmed, m.id)) && m.id != s.localId
      && 2 * HealthyCount(s.members) > |s.members|
      && 2 * HealthyCount(Without(s.members, m.id)) > |Without(s.members, m.id)|
  {
    LowerFolds(r.confirmed, m.id);
    WithoutOne(s.members, m);
    if m.healthy {
      HealthyMember(s.members, m);
    }
  }

  lemma {:induction false} HealthyMember(ms: seq<Member>, m: Member)
    requires m in ms && m.healthy
    ensures HealthyCount(ms) > 0
  {
    if ms[0] != m {
      HealthyMember(ms[1..], m);
    }
  }

  // ---------------------------------------------------------------------------------------
  // Any run of removals, with health changing freely in between

  datatype Step =
    | HealthChanges
    | Removal(status: Status, request: Request, member: Member)

  ghost predicate SameButHealth(ms: seq<Member>, after: seq<Member>) {
    && |ms| == |after|
    && forall i | 0 <= i < |ms| ::
         ms[i].id == after[i].id && ms[i].name == after[i].name && ms[i].peers == after[i].peers
  }

  /** A removal is planned on a status that reports the membership as it is, through a coordinator
      that is a member. */
  ghost predicate Takes(ms: seq<Member>, step: Step, after: seq<Member>) {
    match step
    case HealthChanges => SameButHealth(ms, after)
    case Removal(s, r, m) =>
      && Consistent(s) && s.members == ms && (exists c :: c in ms && c.id == s.localId)
      && Accepts(s, r, m) && after == Without(ms, m.id)
  }

  ghost predicate Run(states: seq<seq<Member>>, steps: seq<Step>) {
    && |states| == |steps| + 1 && states[0] != [] && DistinctIds(states[0])
    && forall i | 0 <= i < |steps| :: Takes(states[i], steps[i], states[i + 1])
  }

  ghost function Ids(ms: seq<Member>): set<string> {
    set m | m in ms :: m.id
  }

  ghost predicate Majority(q: set<string>, ms: seq<Member>) {
    q <= Ids(ms) && 2 * |q| > |ms|
  }

  /** Membership never empties, identities stay distinct and never come back. */
  lemma {:induction false} MembershipSurvives(states: seq<seq<Member>>, steps: seq<Step>, i: nat, j: nat)
    requires Run(states, steps) && i <= j <= |steps|
    ensures states[j] != [] && DistinctIds(states[j])
    ensures Ids(states[j]) <= Ids(states[i])
    decreases j
  {
    if j > 0 {
      MembershipSurvives(states, steps, if i < j then i else 0, j - 1);
      StepSurvives(states[j - 1], steps[j - 1], states[j]);
    }
  }

  lemma StepSurvives(ms: seq<Member>, step: Step, after: seq<Member>)
    requires ms != [] && DistinctIds(ms) && Takes(ms, step, after)
    ensures after != [] && DistinctIds(after) && Ids(after) <= Ids(ms)
  {
    match step
    case HealthChanges =>
      forall id | id in Ids(after) ensures id in Ids(ms) {
        var m :| m in after && m.id == id;
        var i :| 0 <= i < |after| && after[i] == m;
        assert ms[i] in ms;
      }
    case Removal(s, r, m) =>
      assert m in ms;
      RemovalKeepsQuorum(s, r, m);
      WithoutMembers(ms, m.id);
  }

  /** At every removal of a run: the member is gone for good, the coordinator keeps its own, the
      healthy survivors are a majority of what remains, and any majority from before the removal
      meets any majority after it. */
  lemma EveryRemovalIsSafe(states: seq<seq<Member>>, steps: seq<Step>, i: nat, j: nat, p: set<string>, q: set<string>)
    requires Run(states, steps) && i < j <= |steps| && steps[i].Removal?
    requires Majority(p, states[i]) && Majority(q, states[i + 1])
    ensures steps[i].member.id !in Ids(states[j])
    ensures steps[i].status.localId in Ids(states[i + 1])
    ensures 2 * HealthyCount(states[i + 1]) > |states[i + 1]|
    ensures p * q != {}
  {
    var Removal(s, r, m) := steps[i];
    var ms := states[i];
    MembershipSurvives(states, steps, i, i);
    MembershipSurvives(states, steps, i + 1, j);
    assert m in ms;
    RemovalKeepsQuorum(s, r, m);
    WithoutMembers(ms, m.id);
    var c :| c in ms && c.id == s.localId;
    assert c in states[i + 1];
    MajoritiesMeet(ms, states[i + 1], p, q);
  }

  lemma MajoritiesMeet(ms: seq<Member>, after: seq<Member>, p: set<string>, q: set<string>)
    requires DistinctIds(ms) && |after| == |ms| - 1 && Ids(after) <= Ids(ms)
    requires Majority(p, ms) && Majority(q, after)
    ensures p * q != {}
  {
    IdCount(ms);
    assert p + q <= Ids(ms);
    NoLarger(p + q, Ids(ms));
    assert |p + q| + |p * q| == |p| + |q|;
  }

  lemma NoLarger(a: set<string>, b: set<string>)
    requires a <= b
    ensures |a| <= |b|
  {
    assert b == a + (b - a);
  }

  lemma {:induction false} IdCount(ms: seq<Member>)
    requires DistinctIds(ms)
    ensures |Ids(ms)| == |ms|
  {
    if ms != [] {
      IdCount(ms[1..]);
      assert Ids(ms) == {ms[0].id} + Ids(ms[1..]);
      assert forall m | m in ms[1..] :: m.id != ms[0].id;
    }
  }

  /** Repeating an interrupted wipe after its removal: the target counts as gone, unless another
      member carries its name or its peer URL. */
  lemma ResumeAfterRemoval(s: Status, r: Request, m: Member, later: Status)
    requires Consistent(s) && Accepts(s, r, m)
    requires Consistent(later) && later.members == Without(s.members, m.id)
    ensures Gone(later, r.(confirmed := "", allowAbsent := true))
      <==> forall other | other in s.members && other.id != m.id :: !Touches(other, r.name, r.peer)
  {
    assert m in s.members;
    RemovalKeepsQuorum(s, r, m);
    WithoutMembers(s.members, m.id);
  }

  // ---------------------------------------------------------------------------------------
  // The plan as a whole

  datatype Plan = Plan(coordinator: Entry, target: Entry, status: Status, decision: Decision)

  datatype PlanError =
    | InventoryError(error: Error) | UnknownTarget | NotControlPlane | NoStatus | Refused(refusal: Refusal)

  ghost predicate Decides(s: Status, r: Request) {
    s.members != [] && (Gone(s, r) || exists m :: Accepts(s, r, m))
  }

  /** What the search and the guards decide. */
  ghost predicate Decided(s: Status, r: Request, d: Result<Decision, Refusal>) {
    if Absent(s.members, r.name, r.peer) then
      d == if !r.allowAbsent then Err(NotPresent)
           else if s.healthyMembers < s.quorum then Err(BelowQuorum) else Ok(AlreadyGone)
    else if exists m :: Identified(s.members, r.name, r.peer, m) then
      exists m ::
        && Identified(s.members, r.name, r.peer, m)
        && d == if Objection(s, r, m).Some? then Err(Objection(s, r, m).value) else Ok(Remove(m))
    else d == Err(IdentityMismatch)
  }

  /** The result for a target that is configured, refusal by refusal. */
  ghost predicate PlannedFor(
      t: Entry, nodes: seq<Entry>, requested: string, confirmed: string, allowAbsent: bool,
      statusFrom: Entry -> Option<Status>, peerUrl: string -> string, r: Result<Plan, PlanError>)
  {
    if t.role != CONTROL_PLANE then r == Err(NotControlPlane)
    else exists chosen ::
      && Chosen(nodes, requested, t.name, chosen)
      && match chosen
         case Err(e) => r == Err(InventoryError(e))
         case Ok(c) =>
           if statusFrom(c).None? || statusFrom(c).value.members == [] then r == Err(NoStatus)
           else exists d ::
             && Decided(statusFrom(c).value, Request(t.name, peerUrl(t.address), confirmed, allowAbsent), d)
             && r == match d
                case Ok(decision) => Ok(Plan(c, t, statusFrom(c).value, decision))
                case Err(refusal) => Err(Refused(refusal))
  }

  /** From the inventory to a decision: the target is a configured control plane, the coordinator
      another one, and the decision is made on the coordinator's report. */
  method PlanEtcdRemoval(
      nodes: seq<Entry>, target: string, requested: string, confirmed: string, allowAbsent: bool,
      statusFrom: Entry -> Option<Status>, peerUrl: string -> string)
    returns (r: Result<Plan, PlanError>)
    ensures r.Ok? ==>
      var p := r.value;
      var ask := Request(p.target.name, peerUrl(p.target.address), Trim(confirmed), allowAbsent);
      && Usable(nodes) && p.target in nodes && p.target.name == Trim(target) && p.target.role == CONTROL_PLANE
      && Chosen(nodes, requested, p.target.name, Ok(p.coordinator))
      && statusFrom(p.coordinator) == Some(p.status) && p.status.members != []
      && (match p.decision case Remove(m) => Accepts(p.status, ask, m) case AlreadyGone => Gone(p.status, ask))
    ensures !Usable(nodes) ==> exists i, e :: FirstFault(nodes, i, e) && r == Err(InventoryError(e))
    ensures r == Err(UnknownTarget) <==> Usable(nodes) && forall e | e in nodes :: e.name != Trim(target)
    ensures forall t | Usable(nodes) && t in nodes && t.name == Trim(target) ::
      PlannedFor(t, nodes, requested, Trim(confirmed), allowAbsent, statusFrom, peerUrl, r)
    ensures r.Ok? && Trim(confirmed) != "" && r.value.decision.Remove? ==>
      EqualFold(Trim(confirmed), r.value.decision.member.id)
    ensures forall t, c | Usable(nodes) && t in nodes && t.name == Trim(target) && t.role == CONTROL_PLANE
        && Chosen(nodes, requested, t.name, Ok(c)) && statusFrom(c).Some? ::
      r.Ok? <==> Decides(statusFrom(c).value, Request(t.name, peerUrl(t.address), Trim(confirmed), allowAbsent))
  {
    var plan := PlanInventory(nodes);
    if plan.Err? {
      return Err(InventoryError(plan.error));
    }
    var found := Lookup(nodes, Trim(target));
    if found.None? {
      return Err(UnknownTarget);
    }
    var node := found.value;
    OneTarget(nodes, node);
    if node.role != CONTROL_PLANE {
      return Err(NotControlPlane);
    }
    var coordinator := SelectCoordinator(nodes, requested, node.name);
    if coordinator.Err? {
      return Err(InventoryError(coordinator.error));
    }
    OneChoice(nodes, requested, node.name, coordinator.value);
    var status := statusFrom(coordinator.value);
    if status.None? || status.value.members == [] {
      return Err(NoStatus);
    }
    var request := Request(node.name, peerUrl(node.address), Trim(confirmed), allowAbsent);
    var decision := PlanRemoval(status.value, request);
    assert Decided(status.value, request, decision);
    if decision.Err? {
      return Err(Refused(decision.error));
    }
    return Ok(Plan(coordinator.value, node, status.value, decision.value));
  }
}
