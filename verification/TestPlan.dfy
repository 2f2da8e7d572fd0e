/** The CI planner: from changed paths to test groups, VM flavours and driver flavours, and the
    batching of groups into two lanes. */
module TestPlan {
  import opened Text

  datatype Group = Group(name: string, package: string, tests: string)

  datatype Flavour = Standard | Lts

  datatype CiPlan = CiPlan(vms: seq<Flavour>, drivers: seq<Flavour>, groups: seq<Group>)

  const SCENARIOS := "./internal/vmtest/scenarios"
  const LIFECYCLE := "./internal/vmtest"

  const GROUPS: seq<Group> := [
    Group("two-node", SCENARIOS, "TestInstalledRuntimeTwoNodeOperationBackedBootstrapSmoke|TestExternalWorkerJoin"),
    Group("three-node-install", SCENARIOS, "TestThreeNodeGeneration0InstallSmoke"),
    Group("install", LIFECYCLE, "TestFirstInstallTargetDiskBootSmoke|TestFirstInstallTargetDiskLocalHandoffSmoke"),
    Group("config", LIFECYCLE, "TestInstalledRuntimeConfigApplyModesSmoke"),
    Group("update", LIFECYCLE, "TestInstalledRuntimeSysupdateRootUKITransfer"),
    Group("management", LIFECYCLE, "TestInstalledRuntimeManagementRotationSmoke"),
    Group("storage", SCENARIOS, "TestInstallerISOFirstInstallStorageAuthority"),
    Group("boot", SCENARIOS, "TestInstallerISOBootSmoke|TestInstallerPXEBootSmoke")]

  // ---------------------------------------------------------------------------------------
  // What a path asks for

  predicate StartsWithAny(name: string, prefixes: seq<string>) {
    exists i | 0 <= i < |prefixes| :: prefixes[i] <= name
  }

  const QUIET_PREFIXES: seq<string> := ["docs/", ".github/ISSUE_TEMPLATE/", "cmd/katl-release/"]

  const QUIET_FILES: seq<string> := [
    "README.md", "AGENTS.md", ".gitignore", ".github/dependabot.yml", "scripts/katl-release",
    "cmd/katl-kernel-release/candidate.go", "cmd/katl-kernel-release/propose.go",
    "cmd/katl-kernel-release/publish.go", "cmd/katl-kernel-release/update-commit.txt",
    ".github/workflows/kernel-updates.yml", ".github/workflows/kernel-automerge.yml"]

  const CONFIG_FILES: seq<string> := ["cmd/katlctl/config_compatibility.go", "cmd/katlctl/config_inspect.go"]

  predicate Quiet(name: string) {
    || StartsWithAny(name, QUIET_PREFIXES) || name in QUIET_FILES
    || (HasSuffix(name, "_test.go") && !("internal/vmtest/" <= name))
  }

  datatype Ask = Nothing | These(groups: seq<string>) | Everything

  /** Unknown and shared paths ask for everything. */
  function Asks(name: string): Ask {
    if Quiet(name) then Nothing
    else if name in CONFIG_FILES then These(["config", "management", "two-node"])
    else if name == "cmd/katlctl/management_rotation.go" then These(["management"])
    else Everything
  }

  predicate Wants(name: string, g: Group) {
    match Asks(name)
    case Nothing => false
    case These(groups) => g.name in groups
    case Everything => true
  }

  predicate AnyWants(paths: seq<string>, g: Group) {
    exists i | 0 <= i < |paths| :: Wants(paths[i], g)
  }

  function Pick(table: seq<Group>, paths: seq<string>): seq<Group> {
    if table == [] then [] else (if AnyWants(paths, table[0]) then [table[0]] else []) + Pick(table[1..], paths)
  }

  /** The groups some path asks for, in table order. */
  function Selected(paths: seq<string>): seq<Group> {
    Pick(GROUPS, paths)
  }

  method SelectGroups(paths: seq<string>) returns (r: seq<Group>)
    ensures r == Selected(paths)
  {
    var selected: set<string> := {};
    for i := 0 to |paths|
      invariant forall j | 0 <= j < i :: Asks(paths[j]) != Everything
      invariant forall n :: n in selected <==>
        exists j :: 0 <= j < i && Asks(paths[j]).These? && n in Asks(paths[j]).groups
    {
      match Asks(paths[i])
      case Nothing =>
      case These(groups) =>
        selected := selected + set n | n in groups;
      case Everything =>
        PickAll(GROUPS, paths, i);
        return GROUPS;
    }
    NamedAreWanted(paths, selected);
    r := PickNamed(GROUPS, selected, paths);
  }

  lemma NamedAreWanted(paths: seq<string>, selected: set<string>)
    requires forall j | 0 <= j < |paths| :: Asks(paths[j]) != Everything
    requires forall n :: n in selected <==>
      exists j :: 0 <= j < |paths| && Asks(paths[j]).These? && n in Asks(paths[j]).groups
    ensures forall g: Group :: g.name in selected <==> AnyWants(paths, g)
  {
    forall g: Group ensures g.name in selected <==> AnyWants(paths, g) {
      if g.name in selected {
        var j :| 0 <= j < |paths| && Asks(paths[j]).These? && g.name in Asks(paths[j]).groups;
        assert Wants(paths[j], g);
      }
      if AnyWants(paths, g) {
        var j :| 0 <= j < |paths| && Wants(paths[j], g);
        assert Asks(paths[j]) != Everything;
      }
    }
  }

  method PickNamed(table: seq<Group>, selected: set<string>, ghost paths: seq<string>) returns (r: seq<Group>)
    requires forall g: Group :: g.name in selected <==> AnyWants(paths, g)
    ensures r == Pick(table, paths)
  {
    r := [];
    for i := 0 to |table|
      invariant r + Pick(table[i..], paths) == Pick(table, paths)
    {
      assert table[i..][1..] == table[i + 1..];
      if table[i].name in selected {
        r := r + [table[i]];
      }
    }
  }

  lemma {:induction false} PickAll(table: seq<Group>, paths: seq<string>, i: nat)
    requires i < |paths| && Asks(paths[i]) == Everything
    ensures Pick(table, paths) == table
  {
    if table != [] {
      PickAll(table[1..], paths, i);
      assert Wants(paths[i], table[0]);
      assert table == [table[0]] + table[1..];
    }
  }

  // ---------------------------------------------------------------------------------------
  // Selection is a join homomorphism

  lemma {:induction false} PickMembers(table: seq<Group>, paths: seq<string>, g: Group)
    ensures g in Pick(table, paths) <==> g in table && AnyWants(paths, g)
  {
    if table != [] {
      PickMembers(table[1..], paths, g);
    }
  }

  function Either(table: seq<Group>, a: seq<Group>, b: seq<Group>): seq<Group> {
    if table == [] then [] else (if table[0] in a || table[0] in b then [table[0]] else []) + Either(table[1..], a, b)
  }

  lemma WantsJoin(a: seq<string>, b: seq<string>, g: Group)
    ensures AnyWants(a + b, g) <==> AnyWants(a, g) || AnyWants(b, g)
  {
    var c := a + b;
    assert forall i | 0 <= i < |a| :: c[i] == a[i];
    assert forall i | 0 <= i < |b| :: c[|a| + i] == b[i];
    assert forall i | |a| <= i < |c| :: c[i] == b[i - |a|];
  }

  lemma {:induction false} PickJoin(table: seq<Group>, whole: seq<Group>, a: seq<string>, b: seq<string>)
    requires forall g | g in table :: g in whole
    ensures Pick(table, a + b) == Either(table, Pick(whole, a), Pick(whole, b))
  {
    if table != [] {
      var g := table[0];
      WantsJoin(a, b, g);
      PickMembers(whole, a, g);
      PickMembers(whole, b, g);
      PickJoin(table[1..], whole, a, b);
    }
  }

  /** The groups of two path lists together are the table-ordered union of their groups. */
  lemma SelectionJoins(a: seq<string>, b: seq<string>)
    ensures Selected(a + b) == Either(GROUPS, Selected(a), Selected(b))
  {
    PickJoin(GROUPS, GROUPS, a, b);
  }

  lemma WantsMonotone(a: seq<string>, b: seq<string>, g: Group)
    requires forall p | p in a :: p in b
    ensures AnyWants(a, g) ==> AnyWants(b, g)
  {
    if AnyWants(a, g) {
      var i :| 0 <= i < |a| && Wants(a[i], g);
      assert a[i] in b;
      var j :| 0 <= j < |b| && b[j] == a[i];
    }
  }

  /** More paths never select less. */
  lemma SelectionGrows(a: seq<string>, b: seq<string>, g: Group)
    requires forall p | p in a :: p in b
    ensures g in Selected(a) ==> g in Selected(b)
  {
    PickMembers(GROUPS, a, g);
    PickMembers(GROUPS, b, g);
    WantsMonotone(a, b, g);
  }

  lemma {:induction false} PickSame(table: seq<Group>, a: seq<string>, b: seq<string>)
    requires (forall p | p in a :: p in b) && (forall p | p in b :: p in a)
    ensures Pick(table, a) == Pick(table, b)
  {
    if table != [] {
      WantsMonotone(a, b, table[0]);
      WantsMonotone(b, a, table[0]);
      PickSame(table[1..], a, b);
    }
  }

  /** Neither the order nor the repetition of paths shows. */
  lemma PathOrderDoesNotShow(a: seq<string>, b: seq<string>)
    requires (forall p | p in a :: p in b) && (forall p | p in b :: p in a)
    ensures Selected(a) == Selected(b)
  {
    PickSame(GROUPS, a, b);
  }

  // ---------------------------------------------------------------------------------------
  // Batching

  function TestsOf(selected: seq<Group>, package: string): seq<string> {
    if selected == [] then []
    else
      var n := |selected| - 1;
      TestsOf(selected[..n], package) + (if selected[n].package == package then [selected[n].tests] else [])
  }

  function Lane(name: string, package: string, selected: seq<Group>): seq<Group> {
    var tests := TestsOf(selected, package);
    if tests == [] then [] else [Group(name, package, Join(tests, '|'))]
  }

  function Batched(selected: seq<Group>): seq<Group> {
    Lane("cluster", SCENARIOS, selected) + Lane("lifecycle", LIFECYCLE, selected)
  }

  method BatchGroups(selected: seq<Group>) returns (r: seq<Group>)
    ensures r == Batched(selected)
  {
    var lanes := [("cluster", SCENARIOS), ("lifecycle", LIFECYCLE)];
    r := [];
    for i := 0 to 2
      invariant r == (if i >= 1 then Lane("cluster", SCENARIOS, selected) else [])
        + (if i == 2 then Lane("lifecycle", LIFECYCLE, selected) else [])
    {
      var tests: seq<string> := [];
      for j := 0 to |selected|
        invariant tests == TestsOf(selected[..j], lanes[i].1)
      {
        assert selected[..j + 1][..j] == selected[..j];
        if selected[j].package == lanes[i].1 {
          tests := tests + [selected[j].tests];
        }
      }
      assert selected[..|selected|] == selected;
      if |tests| != 0 {
        r := r + [Group(lanes[i].0, lanes[i].1, Join(tests, '|'))];
      }
    }
  }

  /** How often a single test occurs in an alternation joined by bars. */
  ghost function Occurs(tests: string, t: string): nat {
    multiset(Split(tests, '|'))[t]
  }

  ghost function OccursIn(tests: seq<string>, t: string): nat {
    if tests == [] then 0 else Occurs(tests[0], t) + OccursIn(tests[1..], t)
  }

  ghost function Count(groups: seq<Group>, t: string): nat {
    if groups == [] then 0 else Count(groups[..|groups| - 1], t) + Occurs(groups[|groups| - 1].tests, t)
  }

  lemma {:induction false} JoinedOccurs(tests: seq<string>, t: string)
    requires tests != []
    ensures Occurs(Join(tests, '|'), t) == OccursIn(tests, t)
  {
    if |tests| == 1 {
      assert tests[1..] == [];
    } else {
      JoinedOccurs(tests[1..], t);
      SplitBoth(tests[0], '|', Join(tests[1..], '|'));
    }
  }

  lemma {:induction false} OccursInMore(tests: seq<string>, more: string, t: string)
    ensures OccursIn(tests + [more], t) == OccursIn(tests, t) + Occurs(more, t)
  {
    if tests == [] {
      assert [] + [more] == [more] && [more][1..] == [];
    } else {
      OccursInMore(tests[1..], more, t);
      assert (tests + [more])[1..] == tests[1..] + [more];
    }
  }

  ghost predicate InLanes(selected: seq<Group>) {
    forall g | g in selected :: g.package == SCENARIOS || g.package == LIFECYCLE
  }

  lemma {:induction false} TestsPartition(selected: seq<Group>, p: string, q: string, t: string)
    requires p != q && forall g | g in selected :: g.package == p || g.package == q
    ensures Count(selected, t) == OccursIn(TestsOf(selected, p), t) + OccursIn(TestsOf(selected, q), t)
  {
    if selected != [] {
      var n := |selected| - 1;
      var g := selected[n];
      assert g in selected && forall x | x in selected[..n] :: x in selected;
      TestsPartition(selected[..n], p, q, t);
      TestsOfLast(selected, p, t);
      TestsOfLast(selected, q, t);
    }
  }

  lemma TestsOfLast(selected: seq<Group>, package: string, t: string)
    requires selected != []
    ensures var n := |selected| - 1;
      OccursIn(TestsOf(selected, package), t) == OccursIn(TestsOf(selected[..n], package), t)
        + (if selected[n].package == package then Occurs(selected[n].tests, t) else 0)
  {
    var n := |selected| - 1;
    var front := TestsOf(selected[..n], package);
    if selected[n].package == package {
      OccursInMore(front, selected[n].tests, t);
    } else {
      assert front + [] == front;
    }
  }

  lemma LanesDiffer()
    ensures SCENARIOS != LIFECYCLE
  {
    assert |SCENARIOS| == 27 && |LIFECYCLE| == 17;
  }

  /** Every test occurs in the batches exactly as often as in the selected groups. */
  lemma BatchKeepsTests(selected: seq<Group>, t: string)
    requires InLanes(selected)
    ensures Count(Batched(selected), t) == Count(selected, t)
  {
    LanesDiffer();
    TestsPartition(selected, SCENARIOS, LIFECYCLE, t);
    var a, b := Lane("cluster", SCENARIOS, selected), Lane("lifecycle", LIFECYCLE, selected);
    LaneCount("cluster", SCENARIOS, selected, t);
    LaneCount("lifecycle", LIFECYCLE, selected, t);
    if b == [] {
      assert a + b == a;
    } else {
      assert (a + b)[..|a|] == a && b[..0] == [];
    }
  }

  lemma LaneCount(name: string, package: string, selected: seq<Group>, t: string)
    ensures Count(Lane(name, package, selected), t) == OccursIn(TestsOf(selected, package), t)
  {
    var tests := TestsOf(selected, package);
    if tests != [] {
      JoinedOccurs(tests, t);
      var lane := Lane(name, package, selected);
      assert lane[..0] == [];
    }
  }

  // ---------------------------------------------------------------------------------------
  // Flavours

  const DRIVER_PREFIXES: seq<string> := [
    "kernels/", "extensions/", "internal/kernelrelease/", "internal/kernelmodule/",
    "internal/extensionrelease/", "internal/releaseextensions/", "cmd/katl-kernel-release/",
    "cmd/katl-mkosi-artifacts/", "cmd/katl-vmtest-plan/", "mkosi.conf", "mkosi.conf.d/", "mkosi.profiles/runtime/",
    "mkosi.profiles/installer-image/", "mkosi.profiles/kernel-extension-", ".github/actions/mkosi-builder/",
    "mkosi.profiles/vmtest-drbd-tools/", ".github/actions/hosted-vmtest/", ".github/scripts/hosted-vmtest-"]

  const DRIVER_FILES: seq<string> := [
    "go.mod", "go.sum", "Containerfile.mkosi", "scripts/mkosi", "scripts/fedora-release",
    "scripts/build-kernel-extension", "scripts/build-release-extensions", "scripts/assemble-release-extensions",
    "internal/vmtest/drbd_smoke_test.go", ".github/workflows/kernel-qualification.yml", ".github/workflows/ci.yml"]

  const BOTH_PREFIXES: seq<string> := ["packages/", "cmd/katl-runtime-rpms/", "internal/vmtest/", ".github/"]

  predicate DriverChange(name: string) {
    StartsWithAny(name, DRIVER_PREFIXES) || name in DRIVER_FILES
  }

  datatype Flavours = Flavours(vms: set<Flavour>, drivers: set<Flavour>)

  const NEITHER := Flavours({}, {})
  const BOTH := {Standard, Lts}

  /** What one path adds. */
  function PathFlavours(name: string): Flavours {
    if Selected([name]) == [] then NEITHER
    else if "kernels/" <= name && HasSuffix(name, "/standard.json") then Flavours({Standard}, {Standard})
    else if "kernels/" <= name && HasSuffix(name, "/lts.json") then Flavours({Lts}, {Lts})
    else if DriverChange(name) then Flavours(BOTH, BOTH)
    else if StartsWithAny(name, BOTH_PREFIXES) then Flavours(BOTH, {})
    else Flavours({Standard}, {})
  }

  function Together(a: Flavours, b: Flavours): Flavours {
    Flavours(a.vms + b.vms, a.drivers + b.drivers)
  }

  function AllFlavours(paths: seq<string>, adds: string -> Flavours): Flavours {
    if paths == [] then NEITHER
    else Together(AllFlavours(paths[..|paths| - 1], adds), adds(paths[|paths| - 1]))
  }

  /** The flavours as a list, standard first. */
  function InOrder(fs: set<Flavour>): (r: seq<Flavour>)
    ensures Standard in r <==> Standard in fs
    ensures Lts in r <==> Lts in fs
  {
    (if Standard in fs then [Standard] else []) + (if Lts in fs then [Lts] else [])
  }

  /** After a merge both flavours run everything, and drivers are not qualified again. */
  function PlanFrom(all: Flavours, selected: seq<Group>, table: seq<Group>, merged: bool): CiPlan {
    var full := merged && all.vms != {};
    CiPlan(InOrder(if full then BOTH else all.vms), InOrder(if merged then {} else all.drivers),
      Batched(if full then table else selected))
  }

  function Planned(paths: seq<string>, merged: bool, adds: string -> Flavours): CiPlan {
    PlanFrom(AllFlavours(paths, adds), Selected(paths), GROUPS, merged)
  }

  method PlanCI(paths: seq<string>, merged: bool) returns (plan: CiPlan)
    ensures plan == Planned(paths, merged, PathFlavours)
  {
    plan := PlanWith(paths, merged, PathFlavours);
  }

  method PlanWith(paths: seq<string>, merged: bool, adds: string -> Flavours) returns (plan: CiPlan)
    ensures plan == Planned(paths, merged, adds)
  {
    var vms: set<Flavour>, drivers: set<Flavour> := {}, {};
    for i := 0 to |paths|
      invariant Flavours(vms, drivers) == AllFlavours(paths[..i], adds)
    {
      assert paths[..i + 1][..i] == paths[..i];
      var added := adds(paths[i]);
      vms, drivers := vms + added.vms, drivers + added.drivers;
    }
    assert paths[..|paths|] == paths;
    var full := merged && vms != {};
    if full {
      vms := {Standard, Lts};
    }
    if merged {
      drivers := {};
    }
    var selected := SelectGroups(paths);
    if full {
      selected := GROUPS;
    }
    var groups := BatchGroups(selected);
    plan := CiPlan(InOrder(vms), InOrder(drivers), groups);
  }

  // ---------------------------------------------------------------------------------------
  // What a plan guarantees

  /** Flavours, too, are a join homomorphism. */
  lemma {:induction false} FlavoursJoin(a: seq<string>, b: seq<string>, adds: string -> Flavours)
    ensures AllFlavours(a + b, adds) == Together(AllFlavours(a, adds), AllFlavours(b, adds))
  {
    if b == [] {
      assert a + b == a;
    } else {
      FlavoursJoin(a, b[..|b| - 1], adds);
      assert (a + b)[..|a + b| - 1] == a + b[..|b| - 1];
    }
  }

  lemma {:induction false} FlavoursShape(paths: seq<string>, adds: string -> Flavours)
    requires forall p :: adds(p).drivers <= adds(p).vms
    ensures AllFlavours(paths, adds).drivers <= AllFlavours(paths, adds).vms
    ensures AllFlavours(paths, adds).vms != {} <==> exists p :: p in paths && adds(p).vms != {}
  {
    if paths != [] {
      var n := |paths| - 1;
      FlavoursShape(paths[..n], adds);
      assert paths == paths[..n] + [paths[n]];
      assert AllFlavours(paths, adds).vms == AllFlavours(paths[..n], adds).vms + adds(paths[n]).vms;
    }
  }

  lemma {:induction false} PickEmpty(table: seq<Group>, paths: seq<string>)
    ensures Pick(table, paths) != [] <==> exists g :: g in table && AnyWants(paths, g)
  {
    if table != [] {
      PickEmpty(table[1..], paths);
    }
  }

  /** A list of paths selects something exactly when one of its paths does. */
  lemma SelectsSomething(table: seq<Group>, paths: seq<string>)
    ensures Pick(table, paths) != [] <==> exists p :: p in paths && Pick(table, [p]) != []
  {
    PickEmpty(table, paths);
    forall p ensures Pick(table, [p]) != [] <==> exists g :: g in table && Wants(p, g) {
      PickEmpty(table, [p]);
      forall g ensures AnyWants([p], g) <==> Wants(p, g) {
        assert [p][0] == p;
      }
    }
    if g :| g in table && AnyWants(paths, g) {
      var i :| 0 <= i < |paths| && Wants(paths[i], g);
      assert paths[i] in paths && Pick(table, [paths[i]]) != [];
    }
    if p :| p in paths && Pick(table, [p]) != [] {
      var g :| g in table && Wants(p, g);
      var i :| 0 <= i < |paths| && paths[i] == p;
      assert AnyWants(paths, g);
    }
  }

  lemma PathFlavoursShape(name: string)
    ensures PathFlavours(name).drivers <= PathFlavours(name).vms
    ensures PathFlavours(name).vms != {} <==> Selected([name]) != []
  {
    assert Standard in {Standard} && Lts in {Lts} && Standard in BOTH;
  }

  lemma BatchedEmpty(selected: seq<Group>)
    requires InLanes(selected)
    ensures Batched(selected) == [] <==> selected == []
  {
    if selected != [] {
      assert selected[|selected| - 1] in selected;
    }
  }

  lemma TableInLanes()
    ensures InLanes(GROUPS)
  {
  }

  /** VM flavours are planned exactly when groups are, driver flavours only on planned VMs and never
      after a merge, and the batches hold every test of the selected groups exactly as often. */
  lemma PlanGuarantees(paths: seq<string>, merged: bool, t: string)
    ensures var plan := Planned(paths, merged, PathFlavours);
      && (plan.vms != [] <==> plan.groups != [])
      && (Standard in plan.drivers ==> Standard in plan.vms) && (Lts in plan.drivers ==> Lts in plan.vms)
      && (merged ==> plan.drivers == [])
      && Count(plan.groups, t) == Count(if merged && plan.vms != [] then GROUPS else Selected(paths), t)
  {
    forall p ensures PathFlavours(p).drivers <= PathFlavours(p).vms
      ensures PathFlavours(p).vms != {} <==> Selected([p]) != []
    {
      PathFlavoursShape(p);
    }
    SelectsSomething(GROUPS, paths);
    TableInLanes();
    forall g | g in Selected(paths) ensures g in GROUPS {
      PickMembers(GROUPS, paths, g);
    }
    FlavoursShape(paths, PathFlavours);
    PlanFromGuarantees(AllFlavours(paths, PathFlavours), Selected(paths), GROUPS, merged, t);
  }

  lemma PlanFromGuarantees(all: Flavours, selected: seq<Group>, table: seq<Group>, merged: bool, t: string)
    requires all.drivers <= all.vms && (all.vms != {} <==> selected != [])
    requires InLanes(table) && InLanes(selected) && table != []
    ensures var plan := PlanFrom(all, selected, table, merged);
      && (plan.vms != [] <==> plan.groups != [])
      && (Standard in plan.drivers ==> Standard in plan.vms) && (Lts in plan.drivers ==> Lts in plan.vms)
      && (merged ==> plan.drivers == [])
      && Count(plan.groups, t) == Count(if merged && plan.vms != [] then table else selected, t)
  {
    var full := merged && all.vms != {};
    BatchedEmpty(if full then table else selected);
    BatchKeepsTests(if full then table else selected, t);
    InOrderEmpty(all.vms);
  }

  /** A path that is neither quiet nor known to ask for less asks for all groups. */
  lemma AsksAll(name: string)
    requires name != "" && name[0] !in "d.cRAs" && !HasSuffix(name, "_test.go")
    ensures Asks(name) == Everything && Selected([name]) == GROUPS
  {
    forall i | 0 <= i < |QUIET_PREFIXES| ensures !(QUIET_PREFIXES[i] <= name) {
      assert QUIET_PREFIXES[i][0] in "d.c";
    }
    assert forall f | f in QUIET_FILES || f in CONFIG_FILES :: f[0] in "RA.sc";
    PickAll(GROUPS, [name], 0);
  }

  /** Two suffixes that differ at the same distance from the end do not fit one name. */
  lemma OneSuffix(name: string, a: string, b: string, d: nat)
    requires HasSuffix(name, a) && 0 < d <= |a| && d <= |b| && a[|a| - d] != b[|b| - d]
    ensures !HasSuffix(name, b)
  {
    var x := name[|name| - |a|..][|a| - d];
    assert x == a[|a| - d] && x == name[|name| - d];
    if |b| <= |name| {
      assert name[|name| - |b|..][|b| - d] == x;
    }
  }

  const STANDARD_LOCK := "/standard.json"
  const LTS_LOCK := "/lts.json"

  lemma KernelLockAdds(name: string, f: Flavour)
    requires "kernels/" <= name && HasSuffix(name, if f.Lts? then LTS_LOCK else STANDARD_LOCK)
    ensures PathFlavours(name) == Flavours({f}, {f}) && Selected([name]) == GROUPS
  {
    KernelLockSelects(name, if f.Lts? then LTS_LOCK else STANDARD_LOCK);
    if f.Lts? {
      assert LTS_LOCK[3] == 's' && STANDARD_LOCK[8] == 'd';
      OneSuffix(name, LTS_LOCK, STANDARD_LOCK, 6);
    }
  }

  lemma KernelLockSelects(name: string, lock: string)
    requires "kernels/" <= name && HasSuffix(name, lock) && lock in {LTS_LOCK, STANDARD_LOCK}
    ensures Selected([name]) == GROUPS != []
  {
    assert lock[|lock| - 1] == 'n' && "_test.go"[7] == 'o';
    OneSuffix(name, lock, "_test.go", 1);
    assert "kernels/"[0] == 'k' && name[0] == 'k';
    AsksAll(name);
  }

  /** A change to the kernel lock of one flavour plans that flavour's VM and driver, and nothing else; after
      the merge it plans both VMs and no driver. */
  lemma OneKernelChange(name: string, f: Flavour)
    requires "kernels/" <= name && HasSuffix(name, if f.Lts? then "/lts.json" else "/standard.json")
    ensures Planned([name], false, PathFlavours) == CiPlan([f], [f], Batched(GROUPS))
    ensures Planned([name], true, PathFlavours) == CiPlan([Standard, Lts], [], Batched(GROUPS))
  {
    KernelLockAdds(name, f);
    OnePath(name, PathFlavours);
    OneFlavour(f, GROUPS);
  }

  lemma OneFlavour(f: Flavour, table: seq<Group>)
    ensures PlanFrom(Flavours({f}, {f}), table, table, false) == CiPlan([f], [f], Batched(table))
    ensures PlanFrom(Flavours({f}, {f}), table, table, true) == CiPlan([Standard, Lts], [], Batched(table))
  {
    assert f.Standard? || f.Lts?;
  }

  lemma BothFlavours(drivers: set<Flavour>, table: seq<Group>)
    requires drivers == BOTH || drivers == {}
    ensures PlanFrom(Flavours(BOTH, drivers), table, table, false)
      == CiPlan([Standard, Lts], if drivers == {} then [] else [Standard, Lts], Batched(table))
  {
    assert Standard in BOTH && Lts in BOTH;
  }

  /** A change to an extension that is no unit test plans both VMs and both drivers. */
  lemma ExtensionChange(name: string)
    requires "extensions/" <= name && !HasSuffix(name, "_test.go")
    ensures Planned([name], false, PathFlavours) == CiPlan([Standard, Lts], [Standard, Lts], Batched(GROUPS))
  {
    assert "extensions/"[0] == 'e' && name[0] == 'e';
    ExtensionAdds(name);
    OnePath(name, PathFlavours);
    BothFlavours(BOTH, GROUPS);
    assert Standard in BOTH;
  }

  lemma ExtensionAdds(name: string)
    requires "extensions/" <= name && name[0] == 'e' && !HasSuffix(name, "_test.go")
    ensures PathFlavours(name) == Flavours(BOTH, BOTH) && Selected([name]) == GROUPS
  {
    AsksAll(name);
    assert "kernels/"[0] == 'k';
    assert DRIVER_PREFIXES[1] <= name;
  }

  /** A change to a runtime package that is no unit test plans both VMs and no driver. */
  lemma PackageChange(name: string)
    requires "packages/" <= name && !HasSuffix(name, "_test.go")
    ensures Planned([name], false, PathFlavours) == CiPlan([Standard, Lts], [], Batched(GROUPS))
  {
    assert "packages/"[0] == 'p' && name[0] == 'p';
    PackageAdds(name);
    OnePath(name, PathFlavours);
    BothFlavours({}, GROUPS);
  }

  lemma PackageAdds(name: string)
    requires "packages/" <= name && name[0] == 'p' && !HasSuffix(name, "_test.go")
    ensures PathFlavours(name) == Flavours(BOTH, {}) && Selected([name]) == GROUPS
  {
    AsksAll(name);
    assert "kernels/"[0] == 'k';
    NoDriverChange(name);
    assert BOTH_PREFIXES[0] <= name;
  }

  lemma NoDriverChange(name: string)
    requires name != "" && name[0] == 'p'
    ensures !DriverChange(name)
  {
    forall i | 0 <= i < |DRIVER_PREFIXES| ensures !(DRIVER_PREFIXES[i] <= name) {
      assert DRIVER_PREFIXES[i][0] in "keicm.";
    }
    assert forall f | f in DRIVER_FILES :: f[0] in "gCsi.";
  }

  /** A change to the documentation plans nothing, before and after the merge. */
  lemma DocsChange(name: string, merged: bool)
    requires "docs/" <= name
    ensures Planned([name], merged, PathFlavours) == CiPlan([], [], [])
  {
    assert QUIET_PREFIXES[0] <= name;
    PickNone(GROUPS, [name]);
    OnePath(name, PathFlavours);
  }

  /** A change to the rotation command plans the standard VM with the management tests alone. */
  lemma RotationChange()
    ensures Planned(["cmd/katlctl/management_rotation.go"], false, PathFlavours)
      == CiPlan([Standard], [], [Group("lifecycle", LIFECYCLE, "TestInstalledRuntimeManagementRotationSmoke")])
  {
    var name := "cmd/katlctl/management_rotation.go";
    RotationSelects(name);
    RotationAdds(name);
    OnePath(name, PathFlavours);
    OneGroup(GROUPS[5]);
    assert PlanFrom(Flavours({Standard}, {}), [GROUPS[5]], GROUPS, false)
      == CiPlan([Standard], [], Batched([GROUPS[5]]));
  }

  lemma RotationAdds(name: string)
    requires name == "cmd/katlctl/management_rotation.go" && Selected([name]) != []
    ensures PathFlavours(name) == Flavours({Standard}, {})
  {
    RotationDrivesNothing(name);
    assert name[0] == 'c' && name[8] == 'c' && "kernels/"[0] == 'k';
    forall i | 0 <= i < |BOTH_PREFIXES| ensures !(BOTH_PREFIXES[i] <= name) {
      assert BOTH_PREFIXES[i][0] != 'c' || BOTH_PREFIXES[i][8] == '-';
    }
  }

  lemma RotationDrivesNothing(name: string)
    requires name == "cmd/katlctl/management_rotation.go"
    ensures !DriverChange(name)
  {
    assert name[0] == 'c' && name[8] == 'c';
    forall i | 0 <= i < |DRIVER_PREFIXES| ensures !(DRIVER_PREFIXES[i] <= name) {
      assert DRIVER_PREFIXES[i][0] != 'c' || DRIVER_PREFIXES[i][8] == '-';
    }
    assert forall f | f in DRIVER_FILES :: f[0] in "gCsi.";
  }

  lemma RotationSelects(name: string)
    requires name == "cmd/katlctl/management_rotation.go"
    ensures Selected([name]) == [GROUPS[5]]
  {
    RotationAsks(name);
    var t := GROUPS;
    forall i | 0 <= i < |t| ensures AnyWants([name], t[i]) <==> i == 5 {
      assert Wants([name][0], t[i]) <==> t[i].name == "management";
      OtherNames(i);
    }
    PickNothing(t[..5], [name]);
    PickNothing(t[6..], [name]);
    PickBoth(t[..5], [t[5]] + t[6..], [name]);
    assert t == t[..5] + ([t[5]] + t[6..]);
    assert ([t[5]] + t[6..])[1..] == t[6..];
  }

  lemma RotationAsks(name: string)
    requires name == "cmd/katlctl/management_rotation.go"
    ensures Asks(name) == These(["management"])
  {
    assert name[0] == 'c' && name[8] == 'c' && |name| == 34;
    forall i | 0 <= i < |QUIET_PREFIXES| ensures !(QUIET_PREFIXES[i] <= name) {
      assert QUIET_PREFIXES[i][0] != 'c' || QUIET_PREFIXES[i][8] == '-';
    }
    forall f | f in QUIET_FILES || f in CONFIG_FILES ensures f != name {
      assert f[0] != 'c' || f[8] == '-' || |f| != 34;
    }
    assert name[|name| - 3] == '.' && "_test.go"[5] == '.' && name[|name| - 4] == 'n' && "_test.go"[4] == 't';
  }

  lemma OtherNames(i: nat)
    requires i < |GROUPS|
    ensures GROUPS[i].name == "management" <==> i == 5
  {
  }

  lemma OneGroup(g: Group)
    requires g.package == LIFECYCLE
    ensures Batched([g]) == [Group("lifecycle", LIFECYCLE, g.tests)]
  {
    LanesDiffer();
    assert [g][..0] == [];
    assert TestsOf([g], SCENARIOS) == [] && TestsOf([g], LIFECYCLE) == [g.tests];
  }

  lemma {:induction false} PickNothing(table: seq<Group>, paths: seq<string>)
    requires forall g | g in table :: !AnyWants(paths, g)
    ensures Pick(table, paths) == []
  {
    if table != [] {
      PickNothing(table[1..], paths);
    }
  }

  lemma {:induction false} PickBoth(a: seq<Group>, b: seq<Group>, paths: seq<string>)
    ensures Pick(a + b, paths) == Pick(a, paths) + Pick(b, paths)
  {
    if a == [] {
      assert a + b == b;
    } else {
      PickBoth(a[1..], b, paths);
      assert (a + b)[1..] == a[1..] + b;
    }
  }

  lemma {:induction false} PickNone(table: seq<Group>, paths: seq<string>)
    requires forall p | p in paths :: Quiet(p)
    ensures Pick(table, paths) == []
  {
    if table != [] {
      PickNone(table[1..], paths);
    }
  }

  lemma OnePath(name: string, adds: string -> Flavours)
    ensures AllFlavours([name], adds) == adds(name)
  {
    assert [name][..0] == [];
  }

  lemma InOrderEmpty(fs: set<Flavour>)
    ensures InOrder(fs) == [] <==> fs == {}
  {
    if fs != {} {
      var f :| f in fs;
      assert f.Standard? || f.Lts?;
    }
  }
}
