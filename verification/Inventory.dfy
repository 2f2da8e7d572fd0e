/** The node inventory behind wipe and etcd maintenance: which inventories are usable, which nodes
    a command line selects, and which control plane coordinates. */
module Inventory {
  import opened Results
  import opened Order
  import opened Text

  const CONTROL_PLANE := "control-plane"
  const WORKER := "worker"

  datatype Entry = Entry(name: string, address: string, role: string)

  datatype Error =
    | BadName | UnsupportedRole
    | NothingSelected | BlankSelection | DuplicateSelection | UnknownSelection
    | NotASurvivor | NoSurvivor

  predicate KnownRole(e: Entry) {
    e.role == CONTROL_PLANE || e.role == WORKER
  }

  ghost predicate Usable(nodes: seq<Entry>) {
    && (forall e | e in nodes :: e.name != "" && KnownRole(e))
    && (forall i, j | 0 <= i < j < |nodes| :: nodes[i].name != nodes[j].name)
  }

  /** The first node that makes the inventory unusable names the error. */
  ghost predicate FirstFault(nodes: seq<Entry>, i: nat, e: Error) {
    && i < |nodes| && Usable(nodes[..i])
    && var taken := nodes[i].name == "" || exists j :: 0 <= j < i && nodes[j].name == nodes[i].name;
       (taken || !KnownRole(nodes[i])) && e == if taken then BadName else UnsupportedRole
  }

  method PlanInventory(nodes: seq<Entry>) returns (r: Result<seq<Entry>, Error>)
    ensures r.Ok? <==> Usable(nodes)
    ensures r.Ok? ==> r.value == nodes
    ensures r.Err? ==> exists i :: FirstFault(nodes, i, r.error)
  {
    var plan: seq<Entry> := [];
    var seen: set<string> := {};
    for i := 0 to |nodes|
      invariant plan == nodes[..i] && Usable(nodes[..i])
      invariant seen == set e | e in nodes[..i] :: e.name
    {
      assert forall j | 0 <= j < i :: nodes[..i][j] in nodes[..i];
      assert nodes[..i + 1] == nodes[..i] + [nodes[i]] && nodes[i] in nodes;
      if nodes[i].name == "" || nodes[i].name in seen {
        assert FirstFault(nodes, i, BadName);
        return Err(BadName);
      }
      seen := seen + {nodes[i].name};
      if nodes[i].role != CONTROL_PLANE && nodes[i].role != WORKER {
        assert FirstFault(nodes, i, UnsupportedRole);
        return Err(UnsupportedRole);
      }
      plan := plan + [nodes[i]];
    }
    assert nodes[..|nodes|] == nodes;
    return Ok(plan);
  }

  // ---------------------------------------------------------------------------------------
  // Selecting nodes by name

  /** The names are those of distinct nodes of the inventory. */
  ghost predicate Selects(nodes: seq<Entry>, names: seq<string>) {
    && (forall n | n in names :: n != "" && exists e :: e in nodes && e.name == n)
    && (forall i, j | 0 <= i < j < |names| :: names[i] != names[j])
  }

  ghost predicate Picked(nodes: seq<Entry>, names: seq<string>, targets: seq<Entry>) {
    && |targets| == |names|
    && forall i | 0 <= i < |names| :: targets[i] in nodes && targets[i].name == names[i]
  }

  /** The first name that selects nothing new names the error. */
  ghost predicate FirstMisfit(nodes: seq<Entry>, names: seq<string>, i: nat, e: Error) {
    && i < |names| && Selects(nodes, names[..i])
    && match e
       case BlankSelection => names[i] == ""
       case DuplicateSelection => names[i] != "" && names[i] in names[..i]
       case UnknownSelection =>
         names[i] != "" && names[i] !in names[..i] && forall n | n in nodes :: n.name != names[i]
       case _ => false
  }

  /** `--all`, or one node per distinct name in the order named. `partial` says exactly whether
      some node of the inventory is spared. */
  method WipeTargets(nodes: seq<Entry>, all: bool, selected: seq<string>)
    returns (r: Result<(seq<Entry>, bool), Error>)
    requires Usable(nodes)
    ensures r.Ok? <==> all || (selected != [] && Selects(nodes, Trims(selected)))
    ensures r.Ok? && all ==> r.value.0 == nodes
    ensures r.Ok? && !all ==> Picked(nodes, Trims(selected), r.value.0)
    ensures r.Ok? ==> (r.value.1 <==> exists e :: e in nodes && e !in r.value.0)
    ensures r.Err? ==> if selected == [] then r.error == NothingSelected
                       else exists i :: FirstMisfit(nodes, Trims(selected), i, r.error)
  {
    if !all && |selected| == 0 {
      return Err(NothingSelected);
    }
    if all {
      return Ok((nodes, false));
    }
    var picked := PickEach(nodes, Trims(selected));
    if picked.Err? {
      return Err(picked.error);
    }
    Spared(nodes, picked.value);
    return Ok((picked.value, |picked.value| != |nodes|));
  }

  method PickEach(nodes: seq<Entry>, names: seq<string>) returns (r: Result<seq<Entry>, Error>)
    requires Usable(nodes)
    ensures r.Ok? <==> Selects(nodes, names)
    ensures r.Ok? ==> Picked(nodes, names, r.value)
    ensures r.Err? ==> exists i :: FirstMisfit(nodes, names, i, r.error)
  {
    var targets: seq<Entry> := [];
    var seen: set<string> := {};
    for i := 0 to |names|
      invariant Selects(nodes, names[..i]) && Picked(nodes, names[..i], targets)
      invariant forall n :: n in seen <==> n in names[..i]
    {
      SelectsStep(nodes, names, i);
      if names[i] == "" {
        assert FirstMisfit(nodes, names, i, BlankSelection);
        return Err(BlankSelection);
      }
      if names[i] in seen {
        assert FirstMisfit(nodes, names, i, DuplicateSelection);
        return Err(DuplicateSelection);
      }
      seen := seen + {names[i]};
      var node := Lookup(nodes, names[i]);
      if node.None? {
        assert FirstMisfit(nodes, names, i, UnknownSelection);
        return Err(UnknownSelection);
      }
      targets := targets + [node.value];
    }
    assert names[..|names|] == names;
    return Ok(targets);
  }

  lemma SelectsStep(nodes: seq<Entry>, names: seq<string>, i: nat)
    requires i < |names| && Selects(nodes, names[..i])
    ensures Selects(nodes, names[..i + 1])
      <==> names[i] != "" && names[i] !in names[..i] && exists e :: e in nodes && e.name == names[i]
    ensures Selects(nodes, names) ==> Selects(nodes, names[..i + 1])
  {
    var longer := names[..i + 1];
    assert longer[i] in longer && names[i] in names;
    assert forall j | 0 <= j < i :: longer[j] == names[..i][j] && longer[j] in names[..i];
    assert forall n | n in longer :: n in names[..i] || n == names[i];
    assert forall n | n in longer :: n in names;
  }

  /** The map lookup by name. */
  function Lookup(nodes: seq<Entry>, name: string): (r: Option<Entry>)
    ensures r.Some? ==> r.value in nodes && r.value.name == name
    ensures r.None? ==> forall e | e in nodes :: e.name != name
  {
    if nodes == [] then None else if nodes[0].name == name then Some(nodes[0]) else Lookup(nodes[1..], name)
  }

  /** Distinct picks from a list without repeats cover it exactly when the lengths agree. */
  lemma Spared(nodes: seq<Entry>, targets: seq<Entry>)
    requires Usable(nodes) && forall t | t in targets :: t in nodes
    requires forall i, j | 0 <= i < j < |targets| :: targets[i].name != targets[j].name
    ensures |targets| != |nodes| <==> exists e :: e in nodes && e !in targets
  {
    var all := set e | e in nodes;
    var picked := set e | e in targets;
    Cardinal(nodes);
    Cardinal(targets);
    assert picked <= all;
    if |targets| == |nodes| {
      SameSize(picked, all);
      assert forall e | e in nodes :: e in all;
    } else {
      assert picked != all;
      var e :| e in all && e !in picked;
    }
  }

  lemma {:induction false} Cardinal(s: seq<Entry>)
    requires forall i, j | 0 <= i < j < |s| :: s[i].name != s[j].name
    ensures |set e | e in s| == |s|
  {
    if s != [] {
      Cardinal(s[1..]);
      assert s[0] !in s[1..];
      assert (set e | e in s) == {s[0]} + set e | e in s[1..];
    }
  }

  lemma SameSize<T>(a: set<T>, b: set<T>)
    requires a <= b && |a| == |b|
    ensures a == b
  {
    assert b == a + (b - a);
    assert |b| == |a| + |b - a|;
  }

  // ---------------------------------------------------------------------------------------
  // The coordinator

  ghost predicate Survivor(nodes: seq<Entry>, excluded: string, e: Entry) {
    e in nodes && e.role == CONTROL_PLANE && e.name != excluded
  }

  /** The requested surviving control plane, or the first of them by name. */
  ghost predicate Chosen(nodes: seq<Entry>, requested: string, excluded: string, r: Result<Entry, Error>) {
    if Trim(requested) != "" then
      if r.Ok? then Survivor(nodes, excluded, r.value) && r.value.name == Trim(requested)
      else r.error == NotASurvivor && forall e | Survivor(nodes, excluded, e) :: e.name != Trim(requested)
    else
      if r.Ok? then
        && Survivor(nodes, excluded, r.value)
        && forall e | Survivor(nodes, excluded, e) :: e == r.value || Less(r.value.name, e.name)
      else r.error == NoSurvivor && forall e :: !Survivor(nodes, excluded, e)
  }

  method SelectCoordinator(nodes: seq<Entry>, requested: string, excluded: string) returns (r: Result<Entry, Error>)
    ensures Usable(nodes) ==> Chosen(nodes, requested, excluded, r)
    ensures !Usable(nodes) ==> r.Err? && exists i :: FirstFault(nodes, i, r.error)
  {
    var plan := PlanInventory(nodes);
    if plan.Err? {
      return Err(plan.error);
    }
    r := ChooseCoordinator(plan.value, requested, excluded);
  }

  method ChooseCoordinator(nodes: seq<Entry>, requested: string, excluded: string) returns (r: Result<Entry, Error>)
    requires Usable(nodes)
    ensures Chosen(nodes, requested, excluded, r)
  {
    var sorted := SortedSurvivors(nodes, excluded);
    if Trim(requested) != "" {
      for i := 0 to |sorted|
        invariant forall j | 0 <= j < i :: sorted[j].name != Trim(requested)
      {
        if sorted[i].name == Trim(requested) {
          assert sorted[i] in sorted;
          return Ok(sorted[i]);
        }
      }
      return Err(NotASurvivor);
    }
    if |sorted| == 0 {
      return Err(NoSurvivor);
    }
    assert sorted[0] in sorted;
    forall e | Survivor(nodes, excluded, e) ensures e == sorted[0] || Less(sorted[0].name, e.name) {
      assert e in sorted;
      HeadLeast(sorted, e, (e: Entry) => e.name);
      LessTotal(e.name, sorted[0].name);
    }
    return Ok(sorted[0]);
  }

  method SortedSurvivors(nodes: seq<Entry>, excluded: string) returns (sorted: seq<Entry>)
    ensures forall e :: e in sorted <==> Survivor(nodes, excluded, e)
    ensures SortedBy(sorted, (e: Entry) => e.name)
  {
    var candidates: seq<Entry> := [];
    for i := 0 to |nodes|
      invariant forall e :: e in candidates <==> Survivor(nodes[..i], excluded, e)
    {
      assert nodes[..i + 1] == nodes[..i] + [nodes[i]];
      if nodes[i].role == CONTROL_PLANE && nodes[i].name != excluded {
        candidates := candidates + [nodes[i]];
      }
    }
    assert nodes[..|nodes|] == nodes;
    sorted := SortBy(candidates, (e: Entry) => e.name);
    assert forall e :: e in sorted <==> e in multiset(sorted);
    assert forall e :: e in candidates <==> e in multiset(candidates);
  }

  /** Names tell nodes apart, so a choice is the only one. */
  lemma OneTarget(nodes: seq<Entry>, t: Entry)
    requires Usable(nodes) && t in nodes
    ensures forall e | e in nodes && e.name == t.name :: e == t
  {
  }

  lemma OneChoice(nodes: seq<Entry>, requested: string, excluded: string, c: Entry)
    requires Usable(nodes) && Chosen(nodes, requested, excluded, Ok(c))
    ensures forall e | Chosen(nodes, requested, excluded, Ok(e)) :: e == c
  {
    forall e | Chosen(nodes, requested, excluded, Ok(e)) ensures e == c {
      if e.name != c.name {
        if Less(c.name, e.name) {
          LessAsymmetric(c.name, e.name);
        } else {
          LessAsymmetric(e.name, c.name);
        }
      }
    }
  }
}
