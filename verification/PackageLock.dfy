/** Refreshing part of a package lock: the selected package sets, and the profiles that refer to
    them, come from the freshly generated lock, everything else stays. */
module PackageLock {
  import opened Results
  import opened Text

  /** `content` stands for everything a set or a profile records besides its identity. */
  datatype LockedSet = LockedSet(name: string, content: string)

  datatype Profile = Profile(name: string, ref: string, content: string)

  datatype Lock = Lock(tools: string, sets: seq<LockedSet>, profiles: seq<Profile>)

  datatype Error = BlankSelection | DuplicateSelection | MissingFromFresh(name: string) | NoExistingLock | InvalidResult

  // ---------------------------------------------------------------------------------------
  // Merging two lists by name

  ghost predicate Distinct<T>(xs: seq<T>, name: T -> string) {
    forall i, j | 0 <= i < j < |xs| :: name(xs[i]) != name(xs[j])
  }

  /** The last chosen entry with a name, as a map filled in order would hold it. */
  function Find<T>(xs: seq<T>, chosen: T -> bool, name: T -> string, n: string): (r: Option<T>)
    ensures r.Some? ==> r.value in xs && chosen(r.value) && name(r.value) == n
    ensures r.None? ==> forall x | x in xs && chosen(x) :: name(x) != n
  {
    if xs == [] then None
    else
      var last := xs[|xs| - 1];
      if chosen(last) && name(last) == n then Some(last) else Find(xs[..|xs| - 1], chosen, name, n)
  }

  /** What becomes of one existing entry. */
  function Carried<T>(x: T, latest: seq<T>, chosen: T -> bool, name: T -> string): seq<T> {
    if !chosen(x) then [x]
    else
      var found := Find(latest, chosen, name, name(x));
      if found.Some? then [found.value] else []
  }

  function Kept<T>(existing: seq<T>, latest: seq<T>, chosen: T -> bool, name: T -> string): seq<T> {
    if existing == [] then []
    else
      var n := |existing| - 1;
      Kept(existing[..n], latest, chosen, name) + Carried(existing[n], latest, chosen, name)
  }

  function Added<T>(existing: seq<T>, latest: seq<T>, chosen: T -> bool, name: T -> string): seq<T> {
    if latest == [] then []
    else
      var n := |latest| - 1;
      Added(existing, latest[..n], chosen, name) + New(existing, latest[n], chosen, name)
  }

  function New<T>(existing: seq<T>, x: T, chosen: T -> bool, name: T -> string): seq<T> {
    if chosen(x) && Find(existing, chosen, name, name(x)).None? then [x] else []
  }

  function Merged<T>(existing: seq<T>, latest: seq<T>, chosen: T -> bool, name: T -> string): seq<T> {
    Kept(existing, latest, chosen, name) + Added(existing, latest, chosen, name)
  }

  function Filter<T>(xs: seq<T>, p: T -> bool): seq<T> {
    if xs == [] then [] else Filter(xs[..|xs| - 1], p) + (if p(xs[|xs| - 1]) then [xs[|xs| - 1]] else [])
  }

  function Unchosen<T>(chosen: T -> bool): T -> bool {
    x => !chosen(x)
  }

  function NewTo<T>(existing: seq<T>, chosen: T -> bool, name: T -> string): T -> bool {
    x => chosen(x) && Find(existing, chosen, name, name(x)).None?
  }

  lemma {:induction false} AddedInFreshOrder<T>(existing: seq<T>, latest: seq<T>, chosen: T -> bool, name: T -> string)
    ensures Added(existing, latest, chosen, name) == Filter(latest, NewTo(existing, chosen, name))
  {
    if latest != [] {
      AddedInFreshOrder(existing, latest[..|latest| - 1], chosen, name);
    }
  }

  lemma FindUnique<T>(xs: seq<T>, chosen: T -> bool, name: T -> string, x: T)
    requires Distinct(xs, name) && x in xs && chosen(x)
    ensures Find(xs, chosen, name, name(x)) == Some(x)
  {
    var found := Find(xs, chosen, name, name(x));
    var i :| 0 <= i < |xs| && xs[i] == x;
    var j :| 0 <= j < |xs| && xs[j] == found.value;
    assert i == j;
  }

  lemma {:induction false} KeptMembers<T>(existing: seq<T>, latest: seq<T>, chosen: T -> bool, name: T -> string, x: T)
    ensures !chosen(x) ==> (x in Kept(existing, latest, chosen, name) <==> x in existing)
    ensures chosen(x) && x in Kept(existing, latest, chosen, name) ==>
      x in latest && Find(existing, chosen, name, name(x)).Some?
    ensures chosen(x) && Find(latest, chosen, name, name(x)) == Some(x) && Find(existing, chosen, name, name(x)).Some?
      ==> x in Kept(existing, latest, chosen, name)
  {
    if existing != [] {
      var n := |existing| - 1;
      KeptMembers(existing[..n], latest, chosen, name, x);
      assert existing == existing[..n] + [existing[n]];
    }
  }

  lemma {:induction false} AddedMembers<T>(existing: seq<T>, latest: seq<T>, chosen: T -> bool, name: T -> string, x: T)
    ensures x in Added(existing, latest, chosen, name) <==>
      x in latest && chosen(x) && Find(existing, chosen, name, name(x)).None?
  {
    if latest != [] {
      var n := |latest| - 1;
      AddedMembers(existing, latest[..n], chosen, name, x);
      assert latest == latest[..n] + [latest[n]];
    }
  }

  /** The chosen entries are exactly the fresh ones, the others exactly the existing ones. */
  lemma MergedMembers<T>(existing: seq<T>, latest: seq<T>, chosen: T -> bool, name: T -> string, x: T)
    requires Distinct(latest, name)
    ensures x in Merged(existing, latest, chosen, name) <==> if chosen(x) then x in latest else x in existing
  {
    KeptMembers(existing, latest, chosen, name, x);
    AddedMembers(existing, latest, chosen, name, x);
    if x in latest && chosen(x) {
      FindUnique(latest, chosen, name, x);
    }
  }

  /** Entries that are not chosen keep their order. */
  lemma {:induction false} UnchosenKeepOrder<T>(existing: seq<T>, latest: seq<T>, chosen: T -> bool, name: T -> string)
    ensures Filter(Kept(existing, latest, chosen, name), Unchosen(chosen)) == Filter(existing, Unchosen(chosen))
  {
    if existing != [] {
      var n := |existing| - 1;
      var p := Unchosen(chosen);
      UnchosenKeepOrder(existing[..n], latest, chosen, name);
      FilterConcat(Kept(existing[..n], latest, chosen, name), Carried(existing[n], latest, chosen, name), p);
      FilterSmall(Carried(existing[n], latest, chosen, name), p);
    }
  }

  lemma {:induction false} FilterSmall<T>(xs: seq<T>, p: T -> bool)
    requires |xs| <= 1
    ensures Filter(xs, p) == if xs == [] || !p(xs[0]) then [] else xs
  {
    if xs != [] {
      assert xs == [xs[0]] && xs[..0] == [];
    }
  }

  lemma {:induction false} FilterConcat<T>(a: seq<T>, b: seq<T>, p: T -> bool)
    ensures Filter(a + b, p) == Filter(a, p) + Filter(b, p)
  {
    if b == [] {
      assert a + b == a;
    } else {
      FilterConcat(a, b[..|b| - 1], p);
      assert (a + b)[..|a + b| - 1] == a + b[..|b| - 1];
    }
  }

  lemma {:induction false} FilterNone<T>(xs: seq<T>, p: T -> bool)
    requires forall x | x in xs :: !p(x)
    ensures Filter(xs, p) == []
  {
    if xs != [] {
      assert xs[|xs| - 1] in xs;
      FilterNone(xs[..|xs| - 1], p);
    }
  }

  lemma OthersKeepOrder<T>(existing: seq<T>, latest: seq<T>, chosen: T -> bool, name: T -> string)
    ensures Filter(Merged(existing, latest, chosen, name), Unchosen(chosen)) == Filter(existing, Unchosen(chosen))
  {
    var p := Unchosen(chosen);
    forall x | x in Added(existing, latest, chosen, name) ensures chosen(x) {
      AddedMembers(existing, latest, chosen, name, x);
    }
    FilterNone(Added(existing, latest, chosen, name), p);
    FilterConcat(Kept(existing, latest, chosen, name), Added(existing, latest, chosen, name), p);
    UnchosenKeepOrder(existing, latest, chosen, name);
  }

  // ---------------------------------------------------------------------------------------
  // Names of a merge

  ghost predicate Clash<T>(existing: seq<T>, latest: seq<T>, chosen: T -> bool, name: T -> string) {
    exists x, y :: x in existing && !chosen(x) && y in latest && chosen(y) && name(x) == name(y)
  }

  lemma {:induction false} KeptNames<T>(existing: seq<T>, latest: seq<T>, chosen: T -> bool, name: T -> string)
    ensures forall z | z in Kept(existing, latest, chosen, name) ::
      exists e :: e in existing && name(e) == name(z) && chosen(e) == chosen(z)
    ensures Distinct(existing, name) ==> Distinct(Kept(existing, latest, chosen, name), name)
  {
    if existing != [] {
      var n := |existing| - 1;
      KeptNames(existing[..n], latest, chosen, name);
      var front, last := Kept(existing[..n], latest, chosen, name), Carried(existing[n], latest, chosen, name);
      assert existing == existing[..n] + [existing[n]];
      forall z | z in front + last ensures exists e :: e in existing && name(e) == name(z) && chosen(e) == chosen(z) {
        if z in front {
          var e :| e in existing[..n] && name(e) == name(z) && chosen(e) == chosen(z);
          assert e in existing;
        } else {
          assert existing[n] in existing && name(existing[n]) == name(z) && chosen(existing[n]) == chosen(z);
        }
      }
      if Distinct(existing, name) {
        LastIsNew(existing[..n], front, last, existing[n], name);
      }
    }
  }

  lemma LastIsNew<T>(before: seq<T>, front: seq<T>, last: seq<T>, x: T, name: T -> string)
    requires Distinct(before + [x], name) && Distinct(front, name) && |last| <= 1
    requires forall z | z in front :: exists e :: e in before && name(e) == name(z)
    requires forall z | z in last :: name(z) == name(x)
    ensures Distinct(front + last, name)
  {
    forall z | z in front ensures name(z) != name(x) {
      var e :| e in before && name(e) == name(z);
      var i :| 0 <= i < |before| && before[i] == e;
      assert (before + [x])[i] == e && (before + [x])[|before|] == x;
    }
    assert forall i | 0 <= i < |front| :: front[i] in front;
    assert forall i | 0 <= i < |last| :: last[i] in last;
  }

  lemma {:induction false} AddedDistinct<T>(existing: seq<T>, latest: seq<T>, chosen: T -> bool, name: T -> string)
    requires Distinct(latest, name)
    ensures Distinct(Added(existing, latest, chosen, name), name)
  {
    if latest != [] {
      var n := |latest| - 1;
      AddedDistinct(existing, latest[..n], chosen, name);
      var front, last := Added(existing, latest[..n], chosen, name), New(existing, latest[n], chosen, name);
      forall z | z in front ensures exists e :: e in latest[..n] && name(e) == name(z) {
        AddedMembers(existing, latest[..n], chosen, name, z);
      }
      assert latest[..n] + [latest[n]] == latest;
      LastIsNew(latest[..n], front, last, latest[n], name);
    }
  }

  /** A merge keeps names distinct exactly when no entry that stays has the name of one that comes. */
  lemma MergedDistinct<T>(existing: seq<T>, latest: seq<T>, chosen: T -> bool, name: T -> string)
    requires Distinct(existing, name) && Distinct(latest, name)
    ensures Distinct(Merged(existing, latest, chosen, name), name) <==> !Clash(existing, latest, chosen, name)
  {
    var kept, added := Kept(existing, latest, chosen, name), Added(existing, latest, chosen, name);
    if Clash(existing, latest, chosen, name) {
      var x, y :| x in existing && !chosen(x) && y in latest && chosen(y) && name(x) == name(y);
      MergedMembers(existing, latest, chosen, name, x);
      MergedMembers(existing, latest, chosen, name, y);
      SameNameTwice(kept + added, name, x, y);
    } else {
      KeptNames(existing, latest, chosen, name);
      AddedDistinct(existing, latest, chosen, name);
      forall x, y | x in kept && y in added ensures name(x) != name(y) {
        var e :| e in existing && name(e) == name(x) && chosen(e) == chosen(x);
        AddedMembers(existing, latest, chosen, name, y);
      }
      Apart(kept, added, name);
    }
  }

  lemma SameNameTwice<T>(xs: seq<T>, name: T -> string, x: T, y: T)
    requires x in xs && y in xs && x != y && name(x) == name(y)
    ensures !Distinct(xs, name)
  {
    var i :| 0 <= i < |xs| && xs[i] == x;
    var j :| 0 <= j < |xs| && xs[j] == y;
    assert i < j || j < i;
  }

  lemma Apart<T>(a: seq<T>, b: seq<T>, name: T -> string)
    requires Distinct(a, name) && Distinct(b, name) && forall x, y | x in a && y in b :: name(x) != name(y)
    ensures Distinct(a + b, name)
  {
    assert forall i | 0 <= i < |a| :: a[i] in a;
    assert forall i | 0 <= i < |b| :: b[i] in b;
  }

  // ---------------------------------------------------------------------------------------
  // Merging twice

  lemma {:induction false} KeptSelf<T>(xs: seq<T>, latest: seq<T>, chosen: T -> bool, name: T -> string)
    requires forall x | x in xs :: Carried(x, latest, chosen, name) == [x]
    ensures Kept(xs, latest, chosen, name) == xs
  {
    if xs != [] {
      var n := |xs| - 1;
      assert Carried(xs[n], latest, chosen, name) == [xs[n]];
      KeptSelf(xs[..n], latest, chosen, name);
      assert xs == xs[..n] + [xs[n]];
    }
  }

  lemma {:induction false} NoneAdded<T>(xs: seq<T>, latest: seq<T>, chosen: T -> bool, name: T -> string)
    requires forall x | x in latest && chosen(x) :: x in xs
    ensures Added(xs, latest, chosen, name) == []
  {
    if latest != [] {
      var n := |latest| - 1;
      assert latest[n] in latest && forall x | x in latest[..n] :: x in latest;
      NoneAdded(xs, latest[..n], chosen, name);
    }
  }

  lemma MergedTwice<T>(existing: seq<T>, latest: seq<T>, chosen: T -> bool, name: T -> string)
    requires Distinct(latest, name)
    ensures var m := Merged(existing, latest, chosen, name); Merged(m, latest, chosen, name) == m
  {
    var m := Merged(existing, latest, chosen, name);
    forall x | x in m ensures Carried(x, latest, chosen, name) == [x] {
      MergedMembers(existing, latest, chosen, name, x);
      if chosen(x) {
        FindUnique(latest, chosen, name, x);
      }
    }
    forall x | x in latest && chosen(x) ensures x in m {
      MergedMembers(existing, latest, chosen, name, x);
    }
    KeptSelf(m, latest, chosen, name);
    NoneAdded(m, latest, chosen, name);
  }

  /** Where every chosen name is still there, existing entries keep their places. */
  lemma {:induction false} PlacesKept<T>(existing: seq<T>, latest: seq<T>, chosen: T -> bool, name: T -> string)
    requires forall e | e in existing && chosen(e) :: Find(latest, chosen, name, name(e)).Some?
    ensures var kept := Kept(existing, latest, chosen, name);
      |kept| == |existing| && forall i | 0 <= i < |existing| :: name(kept[i]) == name(existing[i])
  {
    if existing != [] {
      var n := |existing| - 1;
      assert existing[n] in existing;
      PlacesKept(existing[..n], latest, chosen, name);
    }
  }

  // ---------------------------------------------------------------------------------------
  // Locks

  function SetName(s: LockedSet): string { s.name }

  function ProfileName(p: Profile): string { p.name }

  function SetChosen(selected: set<string>): LockedSet -> bool { (s: LockedSet) => s.name in selected }

  function ProfileChosen(selected: set<string>): Profile -> bool { (p: Profile) => p.ref in selected }

  ghost predicate Named(sets: seq<LockedSet>, n: string) {
    exists s :: s in sets && s.name == n
  }

  /** What validation asks of the shape of a lock. */
  ghost predicate Valid(l: Lock) {
    && l.sets != [] && l.profiles != []
    && Distinct(l.sets, SetName) && Distinct(l.profiles, ProfileName)
    && forall p | p in l.profiles :: Named(l.sets, p.ref)
  }

  /** The checks of single entries: digests, paths, repositories and packages. */
  datatype Checks = Checks(lockedSet: LockedSet -> bool, profile: Profile -> bool)

  ghost predicate WellFormed(l: Lock, checks: Checks) {
    (forall s | s in l.sets :: checks.lockedSet(s)) && forall p | p in l.profiles :: checks.profile(p)
  }

  ghost function Refreshed(existing: Lock, latest: Lock, selected: set<string>): Lock {
    Lock(latest.tools,
      Merged(existing.sets, latest.sets, SetChosen(selected), SetName),
      Merged(existing.profiles, latest.profiles, ProfileChosen(selected), ProfileName))
  }

  ghost predicate AllNamed(selected: set<string>, sets: seq<LockedSet>) {
    forall n | n in selected :: Named(sets, n)
  }

  /** A profile stays or comes. */
  ghost predicate SomeRemain(existing: Lock, latest: Lock, selected: set<string>) {
    || (exists p :: p in existing.profiles && p.ref !in selected)
    || (exists p :: p in latest.profiles && p.ref in selected)
  }

  /** An unselected profile that stays may not have the name of a selected one that comes, and
      some profile must remain. */
  ghost predicate Mergeable(existing: Lock, latest: Lock, selected: set<string>) {
    && !Clash(existing.profiles, latest.profiles, ProfileChosen(selected), ProfileName)
    && SomeRemain(existing, latest, selected)
  }

  /** The merged lock is valid exactly when it is mergeable. */
  lemma RefreshedValid(existing: Lock, latest: Lock, selected: set<string>)
    requires Valid(existing) && Valid(latest) && AllNamed(selected, latest.sets)
    ensures Valid(Refreshed(existing, latest, selected)) <==> Mergeable(existing, latest, selected)
  {
    var r := Refreshed(existing, latest, selected);
    MergedDistinct(existing.sets, latest.sets, SetChosen(selected), SetName);
    MergedDistinct(existing.profiles, latest.profiles, ProfileChosen(selected), ProfileName);
    NamesStay(existing.sets, latest.sets, selected);
    forall p | p in r.profiles ensures Named(r.sets, p.ref) {
      MergedMembers(existing.profiles, latest.profiles, ProfileChosen(selected), ProfileName, p);
    }
    assert r.sets != [] by {
      assert existing.sets[0] in existing.sets;
      assert Named(existing.sets, existing.sets[0].name) && Named(r.sets, existing.sets[0].name);
    }
    SomeProfile(existing, latest, selected);
  }

  /** Entries of two well-formed locks are well formed in the merge. */
  lemma RefreshedWellFormed(existing: Lock, latest: Lock, selected: set<string>, checks: Checks)
    requires Valid(latest) && WellFormed(existing, checks) && WellFormed(latest, checks)
    ensures WellFormed(Refreshed(existing, latest, selected), checks)
  {
    var r := Refreshed(existing, latest, selected);
    forall s | s in r.sets ensures checks.lockedSet(s) {
      MergedMembers(existing.sets, latest.sets, SetChosen(selected), SetName, s);
    }
    forall p | p in r.profiles ensures checks.profile(p) {
      MergedMembers(existing.profiles, latest.profiles, ProfileChosen(selected), ProfileName, p);
    }
  }

  lemma NamesStay(existing: seq<LockedSet>, latest: seq<LockedSet>, selected: set<string>)
    requires Distinct(latest, SetName) && AllNamed(selected, latest)
    ensures var merged := Merged(existing, latest, SetChosen(selected), SetName);
      forall n :: Named(merged, n) <==> n in selected || Named(existing, n)
  {
    var merged := Merged(existing, latest, SetChosen(selected), SetName);
    forall n ensures Named(merged, n) <==> n in selected || Named(existing, n) {
      if n in selected {
        var s :| s in latest && s.name == n;
        MergedMembers(existing, latest, SetChosen(selected), SetName, s);
      } else {
        forall s: LockedSet ensures s.name == n ==> (s in merged <==> s in existing) {
          MergedMembers(existing, latest, SetChosen(selected), SetName, s);
        }
      }
    }
  }

  lemma SomeProfile(existing: Lock, latest: Lock, selected: set<string>)
    requires Distinct(latest.profiles, ProfileName)
    ensures Refreshed(existing, latest, selected).profiles != [] <==>
      SomeRemain(existing, latest, selected)
  {
    var r := Refreshed(existing, latest, selected).profiles;
    forall p ensures p in r <==> if p.ref in selected then p in latest.profiles else p in existing.profiles {
      MergedMembers(existing.profiles, latest.profiles, ProfileChosen(selected), ProfileName, p);
    }
    if r != [] {
      assert r[0] in r;
    }
  }

  function LookupSet(sets: seq<LockedSet>, n: string): (r: Option<LockedSet>)
    ensures r.Some? ==> r.value in sets && r.value.name == n
    ensures r.None? ==> !Named(sets, n)
  {
    Find(sets, s => true, SetName, n)
  }

  /** Looking up a set gives the fresh one if it was selected and the existing one otherwise;
      existing sets keep their places, and the new ones follow in fresh order. */
  lemma SetsAfterRefresh(existing: Lock, latest: Lock, selected: set<string>, n: string)
    requires Valid(existing) && Valid(latest) && AllNamed(selected, latest.sets)
    ensures var r := Refreshed(existing, latest, selected);
      && LookupSet(r.sets, n) == (if n in selected then LookupSet(latest.sets, n) else LookupSet(existing.sets, n))
      && |r.sets| >= |existing.sets|
      && (forall i | 0 <= i < |existing.sets| :: r.sets[i].name == existing.sets[i].name)
      && r.sets[|existing.sets|..] == Filter(latest.sets, NewTo(existing.sets, SetChosen(selected), SetName))
  {
    var r := Refreshed(existing, latest, selected);
    var chosen := SetChosen(selected);
    assert !Clash(existing.sets, latest.sets, chosen, SetName);
    MergedDistinct(existing.sets, latest.sets, chosen, SetName);
    LookupMerged(existing.sets, latest.sets, selected, n);
    forall e | e in existing.sets && chosen(e) ensures Find(latest.sets, chosen, SetName, e.name).Some? {
      assert Named(latest.sets, e.name);
    }
    PlacesKept(existing.sets, latest.sets, chosen, SetName);
    AddedInFreshOrder(existing.sets, latest.sets, chosen, SetName);
  }

  lemma LookupMerged(existing: seq<LockedSet>, latest: seq<LockedSet>, selected: set<string>, n: string)
    requires Distinct(existing, SetName) && Distinct(latest, SetName)
    requires Distinct(Merged(existing, latest, SetChosen(selected), SetName), SetName)
    ensures LookupSet(Merged(existing, latest, SetChosen(selected), SetName), n)
      == if n in selected then LookupSet(latest, n) else LookupSet(existing, n)
  {
    var merged := Merged(existing, latest, SetChosen(selected), SetName);
    var from := if n in selected then latest else existing;
    forall s: LockedSet | s.name == n ensures s in merged <==> s in from {
      MergedMembers(existing, latest, SetChosen(selected), SetName, s);
    }
    if LookupSet(from, n).Some? {
      FindUnique(merged, s => true, SetName, LookupSet(from, n).value);
    }
  }

  /** Profiles of selected sets are exactly the fresh ones; the others are untouched, in order. */
  lemma ProfilesAfterRefresh(existing: Lock, latest: Lock, selected: set<string>, p: Profile)
    requires Valid(latest)
    ensures var r := Refreshed(existing, latest, selected).profiles;
      && (p in r <==> if p.ref in selected then p in latest.profiles else p in existing.profiles)
      && Filter(r, Unchosen(ProfileChosen(selected))) == Filter(existing.profiles, Unchosen(ProfileChosen(selected)))
  {
    MergedMembers(existing.profiles, latest.profiles, ProfileChosen(selected), ProfileName, p);
    OthersKeepOrder(existing.profiles, latest.profiles, ProfileChosen(selected), ProfileName);
  }

  /** Refreshing the refreshed lock again is the identity. */
  lemma RefreshTwice(existing: Lock, latest: Lock, selected: set<string>)
    requires Valid(latest)
    ensures var r := Refreshed(existing, latest, selected); Refreshed(r, latest, selected) == r
  {
    MergedTwice(existing.sets, latest.sets, SetChosen(selected), SetName);
    MergedTwice(existing.profiles, latest.profiles, ProfileChosen(selected), ProfileName);
  }

  // ---------------------------------------------------------------------------------------
  // The program

  ghost predicate GoodSelection(names: seq<string>) {
    "" !in names && forall i, j | 0 <= i < j < |names| :: names[i] != names[j]
  }

  /** The first blank or repeated name names the error. */
  ghost predicate FirstBadName(names: seq<string>, i: nat, e: Error) {
    && i < |names| && GoodSelection(names[..i])
    && (names[i] == "" || names[i] in names[..i])
    && e == if names[i] == "" then BlankSelection else DuplicateSelection
  }

  method PackageSetNames(values: seq<string>) returns (r: Result<set<string>, Error>)
    ensures r.Ok? <==> GoodSelection(Trims(values))
    ensures r.Ok? ==> r.value == set n | n in Trims(values)
    ensures r.Err? ==> exists i :: FirstBadName(Trims(values), i, r.error)
  {
    var names := Trims(values);
    var selected: set<string> := {};
    for i := 0 to |names|
      invariant GoodSelection(names[..i]) && selected == set n | n in names[..i]
    {
      assert names[i] in names && names[..i + 1] == names[..i] + [names[i]];
      if names[i] == "" {
        assert FirstBadName(names, i, BlankSelection);
        return Err(BlankSelection);
      }
      if names[i] in selected {
        assert FirstBadName(names, i, DuplicateSelection);
        return Err(DuplicateSelection);
      }
      selected := selected + {names[i]};
    }
    assert names[..|names|] == names;
    return Ok(selected);
  }

  method MergeSets(existing: seq<LockedSet>, latest: seq<LockedSet>, selected: set<string>) returns (r: seq<LockedSet>)
    requires Distinct(latest, SetName) && AllNamed(selected, latest)
    ensures r == Merged(existing, latest, SetChosen(selected), SetName)
  {
    var chosen := SetChosen(selected);
    var byName := IndexByName(latest, chosen, SetName);
    r := [];
    var replaced: set<string> := {};
    for i := 0 to |existing|
      invariant r == Kept(existing[..i], latest, chosen, SetName)
      invariant forall n :: n in replaced <==> Find(existing[..i], chosen, SetName, n).Some?
    {
      assert existing[..i + 1][..i] == existing[..i] && existing[..i + 1][i] == existing[i];
      var s := existing[i];
      if s.name in selected {
        assert Named(latest, s.name);
        r := r + [byName[s.name]];
        replaced := replaced + {s.name};
      } else {
        r := r + [s];
      }
    }
    assert existing[..|existing|] == existing;
    r := AppendNew(r, existing, latest, chosen, SetName, replaced);
  }

  method MergeProfiles(existing: seq<Profile>, latest: seq<Profile>, selected: set<string>) returns (r: seq<Profile>)
    requires Distinct(latest, ProfileName)
    ensures r == Merged(existing, latest, ProfileChosen(selected), ProfileName)
  {
    var chosen := ProfileChosen(selected);
    var byName := IndexByName(latest, chosen, ProfileName);
    r := [];
    var replaced: set<string> := {};
    for i := 0 to |existing|
      invariant r == Kept(existing[..i], latest, chosen, ProfileName)
      invariant forall q | q in latest && chosen(q) ::
        q.name in replaced <==> Find(existing[..i], chosen, ProfileName, q.name).Some?
    {
      assert existing[..i + 1][..i] == existing[..i] && existing[..i + 1][i] == existing[i];
      var p := existing[i];
      if p.ref !in selected {
        r := r + [p];
      } else if p.name in byName {
        r := r + [byName[p.name]];
        replaced := replaced + {p.name};
      }
    }
    assert existing[..|existing|] == existing;
    r := AppendNew(r, existing, latest, chosen, ProfileName, replaced);
  }

  /** The map from name to chosen fresh entry. */
  method IndexByName<T>(latest: seq<T>, chosen: T -> bool, name: T -> string) returns (m: map<string, T>)
    ensures forall n :: n in m <==> Find(latest, chosen, name, n).Some?
    ensures forall n | n in m :: Find(latest, chosen, name, n) == Some(m[n])
  {
    m := map[];
    for i := 0 to |latest|
      invariant forall n :: n in m <==> Find(latest[..i], chosen, name, n).Some?
      invariant forall n | n in m :: Find(latest[..i], chosen, name, n) == Some(m[n])
    {
      assert latest[..i + 1][..i] == latest[..i] && latest[..i + 1][i] == latest[i];
      if chosen(latest[i]) {
        m := m[name(latest[i]) := latest[i]];
      }
    }
    assert latest[..|latest|] == latest;
  }

  method AppendNew<T>(
      kept: seq<T>, existing: seq<T>, latest: seq<T>, chosen: T -> bool, name: T -> string, replaced: set<string>)
    returns (r: seq<T>)
    requires forall q | q in latest && chosen(q) :: name(q) in replaced <==> Find(existing, chosen, name, name(q)).Some?
    ensures r == kept + Added(existing, latest, chosen, name)
  {
    r := kept;
    for i := 0 to |latest|
      invariant r == kept + Added(existing, latest[..i], chosen, name)
    {
      assert latest[..i + 1][..i] == latest[..i] && latest[..i + 1][i] == latest[i];
      if chosen(latest[i]) && name(latest[i]) !in replaced {
        r := r + [latest[i]];
      }
    }
    assert latest[..|latest|] == latest;
  }

  /** What a refused refresh reports; among several missing sets any may be named. */
  ghost predicate Refusal(latest: Lock, names: seq<string>, selected: set<string>, stored: Option<Lock>, e: Error) {
    if !GoodSelection(names) then exists i :: FirstBadName(names, i, e)
    else if stored.None? then e == NoExistingLock
    else if !AllNamed(selected, latest.sets) then
      e.MissingFromFresh? && e.name in selected && !Named(latest.sets, e.name)
    else e == InvalidResult
  }

  /** No selection takes the fresh lock whole. A partial refresh succeeds exactly when the
      selection is good, every selected set was generated, there is a lock to refresh and the
      profiles can be merged; the result is then the valid merge. */
  method RefreshedPackageLock(latest: Lock, values: seq<string>, stored: Option<Lock>, checks: Checks)
    returns (r: Result<Lock, Error>)
    requires Valid(latest) && WellFormed(latest, checks)
    requires stored.Some? ==> Valid(stored.value) && WellFormed(stored.value, checks)
    ensures values == [] ==> r == Ok(latest)
    ensures values != [] ==>
      var selected := set n | n in Trims(values);
      && (r.Ok? <==> GoodSelection(Trims(values)) && stored.Some? && AllNamed(selected, latest.sets)
                     && Mergeable(stored.value, latest, selected))
      && (r.Ok? ==> r.value == Refreshed(stored.value, latest, selected) && r.value.tools == latest.tools
                    && Valid(r.value) && WellFormed(r.value, checks))
      && (r.Err? ==> Refusal(latest, Trims(values), selected, stored, r.error))
  {
    var names := PackageSetNames(values);
    if names.Err? {
      return Err(names.error);
    }
    var selected := names.value;
    assert values != [] ==> Trims(values)[0] in selected;
    if |selected| == 0 {
      return Ok(latest);
    }
    if stored.None? {
      return Err(NoExistingLock);
    }
    var missing := FirstMissing(selected, latest.sets);
    if missing.Some? {
      return Err(MissingFromFresh(missing.value));
    }
    var sets := MergeSets(stored.value.sets, latest.sets, selected);
    var profiles := MergeProfiles(stored.value.profiles, latest.profiles, selected);
    var lock := Lock(latest.tools, sets, profiles);
    RefreshedValid(stored.value, latest, selected);
    RefreshedWellFormed(stored.value, latest, selected, checks);
    var ok := Validate(lock, checks);
    if !ok {
      return Err(InvalidResult);
    }
    return Ok(lock);
  }

  method FirstMissing(selected: set<string>, sets: seq<LockedSet>) returns (missing: Option<string>)
    ensures missing.None? <==> AllNamed(selected, sets)
    ensures missing.Some? ==> missing.value in selected && !Named(sets, missing.value)
  {
    var left := selected;
    while left != {}
      invariant left <= selected && forall n | n in selected - left :: Named(sets, n)
    {
      var n :| n in left;
      if Find(sets, s => true, SetName, n).None? {
        assert !Named(sets, n);
        return Some(n);
      }
      assert Named(sets, n);
      left := left - {n};
    }
    return None;
  }

  method Validate(l: Lock, checks: Checks) returns (ok: bool)
    ensures ok <==> Valid(l) && WellFormed(l, checks)
  {
    if |l.profiles| == 0 || |l.sets| == 0 {
      return false;
    }
    var names;
    ok, names := ValidateSets(l.sets, checks);
    if ok {
      ok := ValidateProfiles(l, names, checks);
    }
  }

  method ValidateSets(sets: seq<LockedSet>, checks: Checks) returns (ok: bool, names: set<string>)
    ensures ok <==> Distinct(sets, SetName) && forall s | s in sets :: checks.lockedSet(s)
    ensures ok ==> forall n :: n in names <==> Named(sets, n)
  {
    names := {};
    for i := 0 to |sets|
      invariant Distinct(sets[..i], SetName) && forall n :: n in names <==> Named(sets[..i], n)
      invariant forall j | 0 <= j < i :: checks.lockedSet(sets[j])
    {
      assert forall j | 0 <= j < i :: sets[..i][j] in sets[..i];
      assert sets[..i + 1] == sets[..i] + [sets[i]] && sets[i] in sets;
      if !checks.lockedSet(sets[i]) {
        return false, names;
      }
      if sets[i].name in names {
        var s :| s in sets[..i] && s.name == sets[i].name;
        return false, names;
      }
      names := names + {sets[i].name};
      assert sets[i] in sets[..i + 1];
    }
    assert sets[..|sets|] == sets;
    ok := true;
  }

  ghost predicate ProfilesPass(l: Lock, checks: Checks) {
    forall p | p in l.profiles :: checks.profile(p) && Named(l.sets, p.ref)
  }

  method ValidateProfiles(l: Lock, names: set<string>, checks: Checks) returns (ok: bool)
    requires forall n :: n in names <==> Named(l.sets, n)
    ensures ok <==> Distinct(l.profiles, ProfileName) && ProfilesPass(l, checks)
  {
    var seen: set<string> := {};
    for i := 0 to |l.profiles|
      invariant Distinct(l.profiles[..i], ProfileName) && seen == set p | p in l.profiles[..i] :: p.name
      invariant forall p | p in l.profiles[..i] :: checks.profile(p) && Named(l.sets, p.ref)
    {
      assert forall j | 0 <= j < i :: l.profiles[..i][j] in l.profiles[..i];
      assert l.profiles[..i + 1] == l.profiles[..i] + [l.profiles[i]] && l.profiles[i] in l.profiles;
      if l.profiles[i].name in seen {
        return false;
      }
      seen := seen + {l.profiles[i].name};
      if !checks.profile(l.profiles[i]) || l.profiles[i].ref !in names {
        return false;
      }
    }
    assert l.profiles[..|l.profiles|] == l.profiles;
    return true;
  }
}
