/** Which nodes a Kubernetes component is rolled out on, and in which order: the coordinator comes
    last for the control plane and first for the kubelets. */
module ClusterOrder {
  import opened Results
  import opened Order
  import opened Text
  import opened Inventory

  datatype Component = ControlPlane | Kubelet | KubeProxy

  datatype Error = NoControlPlane | ExternalControlPlane | NotAControlPlane | UnknownNode

  function NameOf(e: Entry): string {
    e.name
  }

  ghost predicate DistinctNames(nodes: seq<Entry>) {
    forall i, j | 0 <= i < j < |nodes| :: nodes[i].name != nodes[j].name
  }

  // ---------------------------------------------------------------------------------------
  // Orders

  function Others(nodes: seq<Entry>, name: string): seq<Entry> {
    if nodes == [] then []
    else
      var n := |nodes| - 1;
      Others(nodes[..n], name) + (if nodes[n].name == name then [] else [nodes[n]])
  }

  /** The others by name, then the coordinator. */
  ghost predicate CoordinatorLast(nodes: seq<Entry>, coordinator: string, order: seq<Entry>) {
    && order != [] && order[|order| - 1] in nodes && order[|order| - 1].name == coordinator
    && SortedBy(order[..|order| - 1], NameOf)
    && (forall e | e in order[..|order| - 1] :: e in nodes && e.name != coordinator)
    && (DistinctNames(nodes) ==> multiset(order) == multiset(nodes))
  }

  /** The coordinator, then the others by name. */
  ghost predicate CoordinatorFirst(nodes: seq<Entry>, coordinator: string, order: seq<Entry>) {
    && order != [] && order[0].name == coordinator
    && SortedBy(order[1..], NameOf)
    && (forall e | e in order[1..] :: e in nodes && e.name != coordinator)
    && (DistinctNames(nodes) && order[0] in nodes ==> multiset(order) == multiset(nodes))
  }

  lemma {:induction false} OthersFacts(nodes: seq<Entry>, name: string)
    ensures forall e :: e in Others(nodes, name) <==> e in nodes && e.name != name
  {
    if nodes != [] {
      var n := |nodes| - 1;
      OthersFacts(nodes[..n], name);
      assert nodes == nodes[..n] + [nodes[n]];
    }
  }

  lemma {:induction false} OthersSorted(nodes: seq<Entry>, name: string)
    requires SortedBy(nodes, NameOf)
    ensures SortedBy(Others(nodes, name), NameOf)
  {
    if nodes != [] {
      var n := |nodes| - 1;
      OthersSorted(nodes[..n], name);
      var front := Others(nodes[..n], name);
      OthersFacts(nodes[..n], name);
      forall i | 0 <= i < |front| ensures !Less(nodes[n].name, front[i].name) {
        assert front[i] in front;
        var k :| 0 <= k < n && nodes[..n][k] == front[i];
        assert NameOf(nodes[k]) == front[i].name && NameOf(nodes[n]) == nodes[n].name;
      }
    }
  }

  /** Without one of uniquely named nodes, exactly that node is missing. */
  lemma {:induction false} OthersPermute(nodes: seq<Entry>, x: Entry)
    requires DistinctNames(nodes) && x in nodes
    ensures multiset(Others(nodes, x.name)) + multiset{x} == multiset(nodes)
  {
    var n := |nodes| - 1;
    assert nodes == nodes[..n] + [nodes[n]];
    if nodes[n].name == x.name {
      assert nodes[n] == x;
      OthersNone(nodes[..n], x.name);
    } else {
      assert x in nodes[..n];
      OthersPermute(nodes[..n], x);
    }
  }

  lemma {:induction false} OthersNone(nodes: seq<Entry>, name: string)
    requires forall i | 0 <= i < |nodes| :: nodes[i].name != name
    ensures Others(nodes, name) == nodes
  {
    if nodes != [] {
      OthersNone(nodes[..|nodes| - 1], name);
    }
  }

  lemma SameElements(nodes: seq<Entry>, sorted: seq<Entry>)
    requires multiset(nodes) == multiset(sorted)
    ensures forall e :: e in nodes <==> e in sorted
  {
    assert forall e :: e in nodes <==> e in multiset(nodes);
    assert forall e :: e in sorted <==> e in multiset(sorted);
  }

  method OrderControlPlanes(nodes: seq<Entry>, coordinator: string) returns (r: Result<seq<Entry>, Error>)
    ensures r.Ok? <==> exists e :: e in nodes && e.name == coordinator
    ensures r.Ok? ==> CoordinatorLast(nodes, coordinator, r.value)
  {
    var sorted := SortBy(nodes, NameOf);
    SameElements(nodes, sorted);
    var ordered, found := SplitOff(sorted, coordinator);
    if found.None? {
      return Err(NotAControlPlane);
    }
    LastOrder(nodes, sorted, coordinator, found.value);
    return Ok(ordered + [found.value]);
  }

  method SplitOff(sorted: seq<Entry>, name: string) returns (others: seq<Entry>, found: Option<Entry>)
    ensures others == Others(sorted, name)
    ensures found.Some? ==> found.value in sorted && found.value.name == name
    ensures found.None? ==> forall e | e in sorted :: e.name != name
  {
    others, found := [], None;
    for i := 0 to |sorted|
      invariant others == Others(sorted[..i], name)
      invariant found.Some? ==> found.value in sorted && found.value.name == name
      invariant found.None? ==> forall j | 0 <= j < i :: sorted[j].name != name
    {
      assert sorted[..i + 1][..i] == sorted[..i];
      if sorted[i].name == name {
        found := Some(sorted[i]);
      } else {
        others := others + [sorted[i]];
      }
    }
    assert sorted[..|sorted|] == sorted;
  }

  lemma LastOrder(nodes: seq<Entry>, sorted: seq<Entry>, coordinator: string, x: Entry)
    requires sorted == SortBy(nodes, NameOf) && x in sorted && x.name == coordinator
    ensures CoordinatorLast(nodes, coordinator, Others(sorted, coordinator) + [x])
  {
    var front := Others(sorted, coordinator);
    var order := front + [x];
    assert order[..|order| - 1] == front;
    SameElements(nodes, sorted);
    OthersFacts(sorted, coordinator);
    OthersSorted(sorted, coordinator);
    if DistinctNames(nodes) {
      SortByDistinct(nodes, NameOf, NameOf);
      OthersPermute(sorted, x);
    }
  }

  method OrderKubeletNodes(nodes: seq<Entry>, controlPlanes: seq<Entry>, coordinator: string)
    returns (r: Result<seq<Entry>, Error>)
    ensures r.Ok? <==> exists e :: e in controlPlanes && e.name == coordinator
    ensures r.Ok? ==> CoordinatorFirst(nodes, coordinator, r.value) && r.value[0] in controlPlanes
  {
    var ordered := OrderControlPlanes(controlPlanes, coordinator);
    if ordered.Err? {
      return Err(ordered.error);
    }
    var node := ordered.value[|ordered.value| - 1];
    var remaining: seq<Entry> := [];
    for i := 0 to |nodes|
      invariant remaining == Others(nodes[..i], node.name)
    {
      assert nodes[..i + 1][..i] == nodes[..i];
      if nodes[i].name != node.name {
        remaining := remaining + [nodes[i]];
      }
    }
    assert nodes[..|nodes|] == nodes;
    var sorted := SortBy(remaining, NameOf);
    FirstOrder(nodes, remaining, sorted, node);
    return Ok([node] + sorted);
  }

  lemma FirstOrder(nodes: seq<Entry>, remaining: seq<Entry>, sorted: seq<Entry>, x: Entry)
    requires remaining == Others(nodes, x.name) && sorted == SortBy(remaining, NameOf)
    ensures CoordinatorFirst(nodes, x.name, [x] + sorted)
  {
    var order := [x] + sorted;
    assert order[1..] == sorted;
    SameElements(remaining, sorted);
    OthersFacts(nodes, x.name);
    if DistinctNames(nodes) && x in nodes {
      OthersPermute(nodes, x);
    }
  }

  // ---------------------------------------------------------------------------------------
  // Which nodes a component is rolled out on

  function Keep(nodes: seq<Entry>, names: seq<string>): seq<Entry> {
    if nodes == [] then []
    else
      var n := |nodes| - 1;
      Keep(nodes[..n], names) + (if nodes[n].name in names then [nodes[n]] else [])
  }

  /** An empty selection selects everything. */
  function Narrowed(nodes: seq<Entry>, selected: seq<string>): seq<Entry> {
    if selected == [] then nodes else Keep(nodes, selected)
  }

  /** Keeps each selected node as often as it was there, and no other. */
  lemma {:induction false} KeepCounts(nodes: seq<Entry>, names: seq<string>, e: Entry)
    ensures multiset(Keep(nodes, names))[e] == if e.name in names then multiset(nodes)[e] else 0
  {
    if nodes != [] {
      var n := |nodes| - 1;
      KeepCounts(nodes[..n], names, e);
      assert nodes == nodes[..n] + [nodes[n]];
    }
  }

  lemma KeepMembers(nodes: seq<Entry>, names: seq<string>)
    ensures forall e :: e in Keep(nodes, names) <==> e in nodes && e.name in names
  {
    forall e ensures e in Keep(nodes, names) <==> e in nodes && e.name in names {
      KeepCounts(nodes, names, e);
      assert e in Keep(nodes, names) <==> multiset(Keep(nodes, names))[e] > 0;
      assert e in nodes <==> multiset(nodes)[e] > 0;
    }
  }

  lemma KeepPermutes(nodes: seq<Entry>, order: seq<Entry>, names: seq<string>)
    requires multiset(nodes) == multiset(order)
    ensures multiset(Keep(nodes, names)) == multiset(Keep(order, names))
  {
    forall e ensures multiset(Keep(nodes, names))[e] == multiset(Keep(order, names))[e] {
      KeepCounts(nodes, names, e);
      KeepCounts(order, names, e);
    }
  }

  lemma {:induction false} KeepJoins(a: seq<Entry>, b: seq<Entry>, names: seq<string>)
    ensures Keep(a + b, names) == Keep(a, names) + Keep(b, names)
  {
    if b == [] {
      assert a + b == a;
    } else {
      var n := |b| - 1;
      KeepJoins(a, b[..n], names);
      assert (a + b)[..|a + b| - 1] == a + b[..n];
    }
  }

  lemma {:induction false} KeepSorted(nodes: seq<Entry>, names: seq<string>)
    requires SortedBy(nodes, NameOf)
    ensures SortedBy(Keep(nodes, names), NameOf)
  {
    if nodes != [] {
      var n := |nodes| - 1;
      var front := Keep(nodes[..n], names);
      KeepSorted(nodes[..n], names);
      KeepMembers(nodes[..n], names);
      forall i | 0 <= i < |front| ensures !Less(nodes[n].name, front[i].name) {
        assert front[i] in front;
        var k :| 0 <= k < n && nodes[..n][k] == front[i];
        assert NameOf(nodes[k]) == front[i].name && NameOf(nodes[n]) == nodes[n].name;
      }
    }
  }

  method KeepSelected(nodes: seq<Entry>, names: seq<string>) returns (r: seq<Entry>)
    ensures r == Keep(nodes, names)
  {
    r := [];
    for i := 0 to |nodes|
      invariant r == Keep(nodes[..i], names)
    {
      assert nodes[..i + 1][..i] == nodes[..i];
      if nodes[i].name in names {
        r := r + [nodes[i]];
      }
    }
    assert nodes[..|nodes|] == nodes;
  }

  /** The selected nodes in configuration order; every selected name must exist. */
  method SelectConfigNodes(nodes: seq<Entry>, names: seq<string>) returns (r: Result<seq<Entry>, Error>)
    ensures r.Ok? <==> forall n | n in names :: exists e :: e in nodes && e.name == n
    ensures r.Ok? ==> r.value == Narrowed(nodes, names)
  {
    if |names| == 0 {
      return Ok(nodes);
    }
    for i := 0 to |names|
      invariant forall j | 0 <= j < i :: exists e :: e in nodes && e.name == names[j]
    {
      assert names[i] in names;
      if Lookup(nodes, names[i]).None? {
        return Err(UnknownNode);
      }
    }
    var kept := KeepSelected(nodes, names);
    return Ok(kept);
  }

  predicate IsControlPlane(e: Entry) {
    e.role == CONTROL_PLANE
  }

  function ControlPlanes(nodes: seq<Entry>): seq<Entry> {
    if nodes == [] then []
    else
      var n := |nodes| - 1;
      ControlPlanes(nodes[..n]) + (if IsControlPlane(nodes[n]) then [nodes[n]] else [])
  }

  lemma {:induction false} ControlPlaneMembers(nodes: seq<Entry>)
    ensures forall e :: e in ControlPlanes(nodes) <==> e in nodes && IsControlPlane(e)
  {
    if nodes != [] {
      var n := |nodes| - 1;
      ControlPlaneMembers(nodes[..n]);
      assert nodes == nodes[..n] + [nodes[n]];
    }
  }

  ghost predicate Eligible(cps: seq<Entry>, selected: seq<string>, e: Entry) {
    e in cps && (selected == [] || e.name in selected)
  }

  function LastEligible(sorted: seq<Entry>, selected: seq<string>): Option<Entry> {
    if sorted == [] then None
    else
      var last := sorted[|sorted| - 1];
      if selected == [] || last.name in selected then Some(last) else LastEligible(sorted[..|sorted| - 1], selected)
  }

  method DefaultCoordinator(cps: seq<Entry>, selected: seq<string>) returns (name: string)
    requires cps != []
    ensures IsDefault(cps, selected, name)
  {
    var sorted := SortBy(cps, NameOf);
    name := LastByName(sorted, selected);
    DefaultIsLast(cps, sorted, selected);
  }

  method LastByName(sorted: seq<Entry>, selected: seq<string>) returns (name: string)
    requires sorted != []
    ensures var found := LastEligible(sorted, selected);
      name == if found.Some? then found.value.name else sorted[|sorted| - 1].name
  {
    name := sorted[|sorted| - 1].name;
    for i := 0 to |sorted|
      invariant var found := LastEligible(sorted[..i], selected);
        name == if found.Some? then found.value.name else sorted[|sorted| - 1].name
    {
      assert sorted[..i + 1][..i] == sorted[..i];
      if |selected| == 0 || sorted[i].name in selected {
        name := sorted[i].name;
      }
    }
    assert sorted[..|sorted|] == sorted;
  }

  /** Without a request the coordinator is the last selected control plane by name, or the last of
      all when none is selected. */
  ghost predicate IsDefault(cps: seq<Entry>, selected: seq<string>, name: string) {
    var among := if exists e :: Eligible(cps, selected, e) then selected else [];
    (exists c :: Eligible(cps, among, c) && c.name == name) && forall e | Eligible(cps, among, e) :: !Less(name, e.name)
  }

  lemma {:induction false} LastEligibleIs(sorted: seq<Entry>, selected: seq<string>)
    requires SortedBy(sorted, NameOf)
    ensures var found := LastEligible(sorted, selected);
      && (found.None? ==> forall e :: !Eligible(sorted, selected, e))
      && (found.Some? ==> Eligible(sorted, selected, found.value)
                          && forall e | Eligible(sorted, selected, e) :: !Less(found.value.name, e.name))
  {
    if sorted != [] {
      var n := |sorted| - 1;
      assert sorted == sorted[..n] + [sorted[n]];
      LastEligibleIs(sorted[..n], selected);
      assert forall e :: Eligible(sorted, selected, e) ==> e == sorted[n] || Eligible(sorted[..n], selected, e);
      if selected == [] || sorted[n].name in selected {
        forall e | e in sorted ensures !Less(sorted[n].name, e.name) {
          BelowLast(sorted, e);
        }
      }
    }
  }

  lemma BelowLast(sorted: seq<Entry>, e: Entry)
    requires SortedBy(sorted, NameOf) && e in sorted
    ensures !Less(sorted[|sorted| - 1].name, e.name)
  {
    var i :| 0 <= i < |sorted| && sorted[i] == e;
    LessIrreflexive(e.name);
    assert NameOf(sorted[i]) == e.name && NameOf(sorted[|sorted| - 1]) == sorted[|sorted| - 1].name;
  }

  lemma DefaultIsLast(cps: seq<Entry>, sorted: seq<Entry>, selected: seq<string>)
    requires cps != [] && sorted == SortBy(cps, NameOf)
    ensures var found := LastEligible(sorted, selected);
      IsDefault(cps, selected, if found.Some? then found.value.name else sorted[|sorted| - 1].name)
  {
    SameElements(cps, sorted);
    assert forall e, names :: Eligible(cps, names, e) <==> Eligible(sorted, names, e);
    LastEligibleIs(sorted, selected);
    LastEligibleIs(sorted, []);
  }

  /** The order before the selection is applied. */
  ghost predicate BaseOrder(
      nodes: seq<Entry>, external: bool, component: Component, coordinator: string, base: seq<Entry>)
  {
    if external then multiset(base) == multiset(nodes) && SortedBy(base, NameOf)
    else match component
      case ControlPlane => CoordinatorLast(ControlPlanes(nodes), coordinator, base)
      case Kubelet => CoordinatorFirst(nodes, coordinator, base) && base[0] in ControlPlanes(nodes)
      case KubeProxy => |base| == 1 && base[0] in ControlPlanes(nodes) && base[0].name == coordinator
  }

  method ListControlPlanes(nodes: seq<Entry>) returns (r: seq<Entry>)
    ensures r == ControlPlanes(nodes)
  {
    r := [];
    for i := 0 to |nodes|
      invariant r == ControlPlanes(nodes[..i])
    {
      assert nodes[..i + 1][..i] == nodes[..i];
      if nodes[i].role == CONTROL_PLANE {
        r := r + [nodes[i]];
      }
    }
    assert nodes[..|nodes|] == nodes;
  }

  ghost predicate Requestable(nodes: seq<Entry>, external: bool, component: Component, requested: string) {
    && (external ==> component == Kubelet && requested == "")
    && (!external ==> ControlPlanes(nodes) != [])
    && (requested != "" ==> exists c :: c in ControlPlanes(nodes) && c.name == requested)
  }

  /** The coordinator is the requested one or the default, and the order is the component's, narrowed
      to the selection. */
  ghost predicate Ordered(
      nodes: seq<Entry>, external: bool, component: Component, requested: string, selected: seq<string>,
      coordinator: string, order: seq<Entry>)
  {
    && (external ==> coordinator == requested)
    && (!external && Trim(requested) == "" ==> IsDefault(ControlPlanes(nodes), selected, coordinator))
    && (!external && Trim(requested) != "" ==> coordinator == requested)
    && exists base :: BaseOrder(nodes, external, component, coordinator, base) && order == Narrowed(base, selected)
  }

  lemma {:induction false} KeepControlPlanes(nodes: seq<Entry>, names: seq<string>)
    ensures ControlPlanes(Keep(nodes, names)) == Keep(ControlPlanes(nodes), names)
  {
    if nodes != [] {
      var n := |nodes| - 1;
      KeepControlPlanes(nodes[..n], names);
      KeepJoins(ControlPlanes(nodes[..n]), if IsControlPlane(nodes[n]) then [nodes[n]] else [], names);
      KeepOne([nodes[n]], names);
      var kept := Keep(nodes[..n], names);
      assert (kept + [nodes[n]])[..|kept|] == kept && kept + [] == kept;
    }
  }

  lemma KeepOne(base: seq<Entry>, names: seq<string>)
    requires |base| == 1
    ensures Keep(base, names) == if base[0].name in names then base else []
  {
    assert base == [base[0]];
  }

  lemma KeepLast(nodes: seq<Entry>, coordinator: string, base: seq<Entry>, names: seq<string>)
    requires CoordinatorLast(nodes, coordinator, base) && DistinctNames(nodes) && coordinator in names
    ensures CoordinatorLast(Keep(nodes, names), coordinator, Keep(base, names))
  {
    var front, last := base[..|base| - 1], base[|base| - 1];
    assert Keep(base, names) == Keep(front, names) + [last] by {
      assert base == front + [last];
      KeepJoins(front, [last], names);
      KeepOne([last], names);
    }
    assert Keep(base, names)[..|Keep(base, names)| - 1] == Keep(front, names);
    KeepSorted(front, names);
    KeepMembers(front, names);
    KeepMembers(nodes, names);
    KeepPermutes(nodes, base, names);
  }

  lemma KeepFirst(nodes: seq<Entry>, coordinator: string, base: seq<Entry>, names: seq<string>)
    requires CoordinatorFirst(nodes, coordinator, base) && DistinctNames(nodes) && base[0] in nodes
    requires coordinator in names
    ensures CoordinatorFirst(Keep(nodes, names), coordinator, Keep(base, names)) && Keep(base, names)[0] == base[0]
  {
    var first, rest := base[0], base[1..];
    assert Keep(base, names) == [first] + Keep(rest, names) by {
      assert base == [first] + rest;
      KeepJoins([first], rest, names);
      KeepOne([first], names);
    }
    assert Keep(base, names)[1..] == Keep(rest, names);
    KeepSorted(rest, names);
    KeepMembers(rest, names);
    KeepMembers(nodes, names);
    KeepPermutes(nodes, base, names);
  }

  /** With its coordinator selected, a narrowed order is the order of the narrowed nodes: the coordinator
      still comes last or first, the others by name, and exactly the selected nodes are in it. */
  lemma NarrowedOrder(
      nodes: seq<Entry>, external: bool, component: Component, coordinator: string, base: seq<Entry>,
      selected: seq<string>)
    requires BaseOrder(nodes, external, component, coordinator, base) && DistinctNames(nodes)
    requires external || selected == [] || coordinator in selected
    ensures BaseOrder(Narrowed(nodes, selected), external, component, coordinator, Narrowed(base, selected))
  {
    if selected != [] {
      KeepControlPlanes(nodes, selected);
      ControlPlaneMembers(nodes);
      if external {
        KeepSorted(base, selected);
        KeepPermutes(nodes, base, selected);
      } else {
        match component
        case ControlPlane =>
          ControlPlanesDistinct(nodes);
          KeepLast(ControlPlanes(nodes), coordinator, base, selected);
        case Kubelet =>
          KeepFirst(nodes, coordinator, base, selected);
          KeepMembers(ControlPlanes(nodes), selected);
        case KubeProxy =>
          KeepMembers(ControlPlanes(nodes), selected);
          KeepOne(base, selected);
      }
    }
  }

  /** Without its coordinator it is the selected others by name; kube-proxy then has nowhere to go. */
  lemma NarrowedOthers(
      nodes: seq<Entry>, component: Component, coordinator: string, base: seq<Entry>, selected: seq<string>)
    requires BaseOrder(nodes, false, component, coordinator, base) && DistinctNames(nodes)
    requires selected != [] && coordinator !in selected
    ensures SortedBy(Keep(base, selected), NameOf)
    ensures component == KubeProxy ==> Keep(base, selected) == []
    ensures component == ControlPlane ==>
      multiset(Keep(base, selected)) == multiset(Keep(ControlPlanes(nodes), selected))
    ensures component == Kubelet ==> multiset(Keep(base, selected)) == multiset(Keep(nodes, selected))
  {
    ControlPlaneMembers(nodes);
    match component
    case ControlPlane =>
      ControlPlanesDistinct(nodes);
      var front, last := base[..|base| - 1], base[|base| - 1];
      assert base == front + [last];
      KeepJoins(front, [last], selected);
      assert Keep([last], selected) == [];
      KeepSorted(front, selected);
      KeepPermutes(ControlPlanes(nodes), base, selected);
    case Kubelet =>
      var first, rest := base[0], base[1..];
      assert base == [first] + rest;
      KeepJoins([first], rest, selected);
      assert Keep([first], selected) == [];
      KeepSorted(rest, selected);
      KeepPermutes(nodes, base, selected);
    case KubeProxy =>
      KeepOne(base, selected);
  }

  lemma {:induction false} ControlPlanesDistinct(nodes: seq<Entry>)
    requires DistinctNames(nodes)
    ensures DistinctNames(ControlPlanes(nodes))
  {
    if nodes != [] {
      var n := |nodes| - 1;
      ControlPlanesDistinct(nodes[..n]);
      ControlPlaneMembers(nodes[..n]);
      var front := ControlPlanes(nodes[..n]);
      forall i | 0 <= i < |front| ensures front[i].name != nodes[n].name {
        assert front[i] in front;
        var k :| 0 <= k < n && nodes[..n][k] == front[i];
      }
    }
  }

  /** The coordinator and the nodes of one component, in order. */
  method ComponentNodes(
      nodes: seq<Entry>, external: bool, component: Component, requested: string, selected: seq<string>)
    returns (r: Result<(string, seq<Entry>), Error>)
    ensures r.Ok? <==> Requestable(nodes, external, component, requested)
    ensures r.Ok? ==> Ordered(nodes, external, component, requested, selected, r.value.0, r.value.1)
    ensures r.Err? ==>
      if !external && ControlPlanes(nodes) == [] then r.error == NoControlPlane
      else if external && (component != Kubelet || requested != "") then r.error == ExternalControlPlane
      else r.error == NotAControlPlane
  {
    var cps := ListControlPlanes(nodes);
    if |cps| == 0 && !external {
      return Err(NoControlPlane);
    }
    if external && (component != Kubelet || requested != "") {
      return Err(ExternalControlPlane);
    }
    if requested != "" && Lookup(cps, requested).None? {
      return Err(NotAControlPlane);
    }
    var coordinator := requested;
    if Trim(requested) == "" && !external {
      coordinator := DefaultCoordinator(cps, selected);
    }
    var base := ComponentBase(nodes, cps, external, component, coordinator);
    var order := base;
    if |selected| > 0 {
      order := KeepSelected(base, selected);
    }
    return Ok((coordinator, order));
  }

  method ComponentBase(nodes: seq<Entry>, cps: seq<Entry>, external: bool, component: Component, coordinator: string)
    returns (base: seq<Entry>)
    requires cps == ControlPlanes(nodes) && (!external ==> exists c :: c in cps && c.name == coordinator)
    ensures BaseOrder(nodes, external, component, coordinator, base)
  {
    if external {
      return SortBy(nodes, NameOf);
    }
    match component
    case KubeProxy =>
      var ordered := OrderControlPlanes(cps, coordinator);
      base := [ordered.value[|ordered.value| - 1]];
    case Kubelet =>
      var ordered := OrderKubeletNodes(nodes, cps, coordinator);
      base := ordered.value;
    case ControlPlane =>
      var ordered := OrderControlPlanes(cps, coordinator);
      base := ordered.value;
  }
}
