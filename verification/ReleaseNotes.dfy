/** The packages section of the release notes: how it is built, and how it is spliced in front of
    the verification section, replacing what an earlier run or an older layout put there. */
module ReleaseNotes {
  import opened Results
  import opened Order
  import opened Text

  const HEADING := "## Packages\n"
  const LEGACY_NAME := " Included components\n"
  const LEGACY := "##" + LEGACY_NAME
  const VERIFY := "## Verify\n"
  const NEXT := "\n## "
  const BEFORE_VERIFY := "\n## Verify\n"

  datatype Error = NothingAfterLegacy | NoVerifyAfterPackages | NoVerify

  // ---------------------------------------------------------------------------------------
  // The splice

  function DropLegacy(body: string): Result<string, Error> {
    if At(body, 0, LEGACY) then
      var next := Index(body, NEXT);
      if next.None? then Err(NothingAfterLegacy) else Ok(body[next.value + 1..])
    else Ok(body)
  }

  function DropPackages(body: string): Result<string, Error> {
    var start := Index(body, HEADING);
    if start.None? then Ok(body)
    else
      var end := Index(body[start.value..], BEFORE_VERIFY);
      if end.None? then Err(NoVerifyAfterPackages)
      else Ok(body[..start.value] + body[start.value + end.value + 1..])
  }

  function Stripped(notes: string): Result<string, Error> {
    var body := DropLegacy(notes);
    if body.Err? then body else DropPackages(body.value)
  }

  function Inserted(body: string, section: string): Result<string, Error> {
    var v := Index(body, VERIFY);
    if v.None? then Err(NoVerify) else Ok(body[..v.value] + section + "\n" + body[v.value..])
  }

  function Spliced(notes: string, section: string): Result<string, Error> {
    var body := Stripped(notes);
    if body.Err? then body else Inserted(body.value, section)
  }

  /** A section the splice can take out again: it begins with the packages heading, ends with a table
      row and holds no verification heading. */
  ghost predicate Spliceable(section: string) {
    && HEADING <= section && HasSuffix(section, "|\n")
    && forall k: nat :: !At(section, k, BEFORE_VERIFY)
  }

  /** A section as the builder makes it, without any second-level heading after the first. */
  ghost predicate Shaped(section: string) {
    && HEADING <= section && HasSuffix(section, "|\n")
    && forall k: nat :: !At(section, k, NEXT)
  }

  lemma ShapedSpliceable(section: string)
    requires Shaped(section)
    ensures Spliceable(section)
  {
    assert BEFORE_VERIFY[..4] == NEXT;
    forall k: nat ensures !At(section, k, BEFORE_VERIFY) {
      AtPrefix(section, k, BEFORE_VERIFY, 4);
    }
  }

  // ---------------------------------------------------------------------------------------
  // Searching in pieces

  lemma AtChar(s: string, k: nat, part: string, i: nat)
    requires At(s, k, part) && i < |part|
    ensures s[k + i] == part[i]
  {
    assert s[k..k + |part|][i] == s[k + i];
  }

  lemma AtFails(s: string, k: nat, part: string, i: nat)
    requires i < |part| && (k + i < |s| ==> s[k + i] != part[i])
    ensures !At(s, k, part)
  {
    if k + |part| <= |s| {
      assert s[k..k + |part|][i] == s[k + i];
    }
  }

  lemma AtPrefix(s: string, k: nat, part: string, m: nat)
    requires m <= |part|
    ensures At(s, k, part) ==> At(s, k, part[..m])
  {
    if k + |part| <= |s| {
      assert s[k..k + m] == s[k..k + |part|][..m];
    }
  }

  lemma AtShift(a: string, b: string, k: nat, part: string)
    ensures At(a + b, |a| + k, part) <==> At(b, k, part)
  {
    if k + |part| <= |b| {
      assert (a + b)[|a| + k..|a| + k + |part|] == b[k..k + |part|];
    }
  }

  lemma AtWithin(a: string, b: string, k: nat, part: string)
    requires k + |part| <= |a|
    ensures At(a + b, k, part) <==> At(a, k, part)
  {
    assert (a + b)[k..k + |part|] == a[k..k + |part|];
  }

  /** The heading of a section never starts before the section does, if the text in front of it
      has none. */
  lemma HeadingStraddles(front: string, rest: string, k: nat)
    requires k < |front| && !At(front, k, HEADING)
    requires At(rest, 0, HEADING) || At(rest, 0, VERIFY)
    ensures !At(front + rest, k, HEADING)
  {
    var s := front + rest;
    if k + |HEADING| <= |front| {
      AtWithin(front, rest, k, HEADING);
    } else {
      var i := |front| - k;
      assert HEADING[0] == '#' && HEADING[1] == '#' && HEADING[2] == ' ';
      assert VERIFY[0] == '#' && VERIFY[1] == '#';
      assert s[k + i] == rest[0] && s[k + i + 1] == rest[1];
      if At(rest, 0, HEADING) {
        AtChar(rest, 0, HEADING, 0);
        AtChar(rest, 0, HEADING, 1);
      } else {
        AtChar(rest, 0, VERIFY, 0);
        AtChar(rest, 0, VERIFY, 1);
      }
      HeadingSigns(i);
      AtFails(s, k, HEADING, if HEADING[i] != '#' then i else i + 1);
    }
  }

  lemma HeadingSigns(i: nat)
    requires 0 < i < |HEADING|
    ensures HEADING[i] != '#' || (i + 1 < |HEADING| && HEADING[i + 1] != '#')
  {
    assert HEADING[2..] == " Packages\n" && '#' !in " Packages\n";
    if i >= 2 {
      assert HEADING[i] == HEADING[2..][i - 2];
    }
  }

  // ---------------------------------------------------------------------------------------
  // The second pass

  ghost predicate NoHeading(s: string) {
    forall k: nat :: !At(s, k, HEADING)
  }

  /** What stands in front of the verification section holds no packages heading. */
  lemma FrontHasNoHeading(notes: string, v: nat)
    requires Stripped(notes).Ok? && Index(Stripped(notes).value, VERIFY) == Some(v)
    ensures NoHeading(Stripped(notes).value[..v])
  {
    VerifyNotLater(DropLegacy(notes).value, v);
    NoneBefore(DropLegacy(notes).value, v);
  }

  lemma VerifyNotLater(body: string, v: nat)
    requires DropPackages(body).Ok? && Index(DropPackages(body).value, VERIFY) == Some(v)
    ensures v <= |body| && DropPackages(body).value[..v] == body[..v]
    ensures forall k: nat | k < v :: !At(body, k, HEADING)
  {
    var start := Index(body, HEADING);
    if start.Some? {
      var end := Index(body[start.value..], BEFORE_VERIFY).value;
      var front, rest := body[..start.value], body[start.value + end + 1..];
      assert v <= start.value by {
        VerifyFollows(body, start.value, end);
        AtShift(front, rest, 0, VERIFY);
      }
      assert (front + rest)[..v] == body[..v];
    }
  }

  lemma NoneBefore(body: string, v: nat)
    requires v <= |body| && forall k: nat | k < v :: !At(body, k, HEADING)
    ensures NoHeading(body[..v])
  {
    assert body == body[..v] + body[v..];
    forall k: nat ensures !At(body[..v], k, HEADING) {
      if k + |HEADING| <= v {
        AtWithin(body[..v], body[v..], k, HEADING);
      }
    }
  }

  lemma VerifyFollows(body: string, start: nat, end: nat)
    requires start <= |body| && At(body[start..], end, BEFORE_VERIFY)
    ensures At(body[start + end + 1..], 0, VERIFY)
  {
    var tail := body[start..];
    assert BEFORE_VERIFY == "\n" + VERIFY;
    assert tail[end..end + |BEFORE_VERIFY|][1..] == VERIFY;
    assert body[start + end + 1..][0..|VERIFY|] == tail[end..end + |BEFORE_VERIFY|][1..];
  }

  /** No second-level heading starts inside the section or on its last newline. */
  lemma NoNextBefore(section: string, rest: string, k: nat)
    requires Shaped(section) && k < |section|
    ensures !At(section + "\n" + rest, k, NEXT)
  {
    var s := section + "\n" + rest;
    var n := |section|;
    assert s == section + ("\n" + rest);
    if k + 4 <= n {
      AtWithin(section, "\n" + rest, k, NEXT);
    } else {
      assert section[n - 2..][0] == '|' && section[n - 2..][1] == '\n';
      assert s[n - 2] == '|' && s[n - 1] == '\n' && s[n] == '\n';
      assert NEXT[0] == '\n' && NEXT[1] == '#' && NEXT[2] == '#';
      AtFails(s, k, NEXT, if k == n - 3 then 2 else if k == n - 2 then 0 else 1);
    }
  }

  /** No verification heading starts inside the section or on its last newline. */
  lemma NoVerifyBefore(section: string, rest: string, k: nat)
    requires Spliceable(section) && k < |section|
    ensures !At(section + "\n" + rest, k, BEFORE_VERIFY)
  {
    var s := section + "\n" + rest;
    var n := |section|;
    assert s == section + ("\n" + rest);
    if k + 11 <= n {
      AtWithin(section, "\n" + rest, k, BEFORE_VERIFY);
    } else {
      assert section[n - 2..][1] == '\n';
      assert s[n - 1] == '\n' && s[n] == '\n';
      VerifyNewlines(n - 1 - k);
      AtFails(s, k, BEFORE_VERIFY, if k == n - 1 then 1 else n - 1 - k);
    }
  }

  /** The only newlines of the heading's search text are its first and last character. */
  lemma VerifyNewlines(i: nat)
    requires i < 10
    ensures i > 0 ==> BEFORE_VERIFY[i] != '\n'
    ensures BEFORE_VERIFY[1] == '#'
  {
    assert BEFORE_VERIFY[1..10] == "## Verify" && '\n' !in "## Verify";
    if i > 0 {
      assert BEFORE_VERIFY[i] == BEFORE_VERIFY[1..10][i - 1];
    }
  }

  /** Dropping the packages section takes an inserted one out again. */
  lemma DropInserted(front: string, section: string, rest: string)
    requires NoHeading(front) && Spliceable(section) && At(rest, 0, VERIFY)
    ensures DropPackages(front + section + "\n" + rest) == Ok(front + rest)
  {
    var tail := section + "\n" + rest;
    var s := front + section + "\n" + rest;
    assert s == front + tail && s[|front|..] == tail;
    AtWithin(section, "\n" + rest, 0, HEADING);
    assert section + ("\n" + rest) == tail;
    AtShift(front, tail, 0, HEADING);
    forall k: nat | k < |front| ensures !At(s, k, HEADING) {
      HeadingStraddles(front, tail, k);
    }
    assert Index(s, HEADING) == Some(|front|);
    EndOfInserted(section, rest);
    assert s[..|front|] == front && s[|front| + |section| + 1..] == rest;
  }

  lemma EndOfInserted(section: string, rest: string)
    requires Spliceable(section) && At(rest, 0, VERIFY)
    ensures Index(section + "\n" + rest, BEFORE_VERIFY) == Some(|section|)
  {
    var tail := section + "\n" + rest;
    assert tail == section + ("\n" + rest);
    assert BEFORE_VERIFY == "\n" + VERIFY;
    assert ("\n" + rest)[0..|BEFORE_VERIFY|] == "\n" + rest[0..|VERIFY|];
    AtShift(section, "\n" + rest, 0, BEFORE_VERIFY);
    forall k: nat | k < |section| ensures !At(tail, k, BEFORE_VERIFY) {
      NoVerifyBefore(section, rest, k);
    }
  }

  /** What follows neither makes nor hides a legacy heading at the start. */
  lemma LegacyStart(front: string, x: string)
    requires At(x, 0, HEADING) || At(x, 0, VERIFY)
    ensures At(front + x, 0, LEGACY) <==> At(front, 0, LEGACY)
  {
    var s := front + x;
    var i := |front|;
    if |LEGACY| <= i {
      AtWithin(front, x, 0, LEGACY);
    } else {
      SecondLevel(x);
      LegacySigns(i);
      assert s[i] == '#' && s[i + 1] == '#' && s[i + 3] == x[3];
      AtFails(s, 0, LEGACY, if i == 0 then 3 else if LEGACY[i] != '#' then i else i + 1);
    }
  }

  lemma SecondLevel(x: string)
    requires At(x, 0, HEADING) || At(x, 0, VERIFY)
    ensures |x| >= 10 && x[0] == '#' && x[1] == '#' && x[3] != 'I'
  {
    var part := if At(x, 0, HEADING) then HEADING else VERIFY;
    AtChar(x, 0, part, 0);
    AtChar(x, 0, part, 1);
    AtChar(x, 0, part, 3);
  }

  lemma LegacySigns(i: nat)
    requires i < |LEGACY|
    ensures i > 0 ==> LEGACY[i] != '#' || (i + 1 < |LEGACY| && LEGACY[i + 1] != '#')
    ensures LEGACY[3] == 'I'
  {
    assert '#' !in LEGACY_NAME && LEGACY_NAME[0] == ' ' && LEGACY_NAME[1] == 'I';
    if i >= 2 {
      assert LEGACY[i] == LEGACY_NAME[i - 2];
    }
  }

  lemma Shorter(body: string, section: string)
    ensures DropPackages(body).Ok? ==> |DropPackages(body).value| <= |body|
    ensures Inserted(body, section).Ok? ==> |Inserted(body, section).value| == |body| + |section| + 1
  {
  }

  /** A legacy heading in front makes the next run cut more away. */
  lemma LegacyShrinks(front: string, section: string, rest: string)
    requires NoHeading(front) && Shaped(section) && At(rest, 0, VERIFY) && At(front, 0, LEGACY)
    ensures var s := front + section + "\n" + rest;
      Spliced(s, section).Ok? ==> |Spliced(s, section).value| < |s|
  {
    var s := front + section + "\n" + rest;
    var next := Index(s, NEXT);
    assert s == front + (section + "\n" + rest);
    AtWithin(front, section + "\n" + rest, 0, LEGACY);
    if next.Some? {
      var n := next.value;
      var body := s[n + 1..];
      AfterLegacy(s, section, n);
      if n + 1 <= |front| {
        LegacyEndsInFront(front, section, rest, n);
        Shorter(front[n + 1..] + rest, section);
      } else {
        LegacyEndsLater(front, section, rest, n);
      }
    }
  }

  lemma AfterLegacy(s: string, section: string, n: nat)
    requires At(s, 0, LEGACY) && Index(s, NEXT) == Some(n)
    ensures var body := DropPackages(s[n + 1..]);
      && Spliced(s, section) == (if body.Err? then body else Inserted(body.value, section))
      && (Spliced(s, section).Ok? ==> |Spliced(s, section).value| <= |s| - n + |section|)
  {
    Shorter(s[n + 1..], section);
    if DropPackages(s[n + 1..]).Ok? {
      Shorter(DropPackages(s[n + 1..]).value, section);
    }
  }

  lemma LegacyEndsInFront(front: string, section: string, rest: string, n: nat)
    requires NoHeading(front) && Shaped(section) && At(rest, 0, VERIFY) && n + 1 <= |front|
    ensures var body := (front + section + "\n" + rest)[n + 1..];
      DropPackages(body) == Ok(front[n + 1..] + rest)
  {
    var body := (front + section + "\n" + rest)[n + 1..];
    var shorter := front[n + 1..];
    assert front == front[..n + 1] + shorter;
    assert body == shorter + section + "\n" + rest;
    ShapedSpliceable(section);
    forall k: nat ensures !At(shorter, k, HEADING) {
      AtShift(front[..n + 1], shorter, k, HEADING);
    }
    DropInserted(shorter, section, rest);
  }

  lemma LegacyEndsLater(front: string, section: string, rest: string, n: nat)
    requires Shaped(section) && n >= |front| && At(front + section + "\n" + rest, n, NEXT)
    ensures n >= |front| + |section|
  {
    var tail := section + "\n" + rest;
    assert front + section + "\n" + rest == front + tail;
    AtShift(front, tail, n - |front|, NEXT);
    if n - |front| < |section| {
      NoNextBefore(section, rest, n - |front|);
    }
  }

  /** A second run reproduces the first, and taking the section out again gives the stripped notes
      back, when the stripped notes do not begin with the legacy heading; for a section as the
      builder makes it, exactly then. */
  lemma SecondRun(notes: string, section: string)
    requires Spliceable(section) && Spliced(notes, section).Ok?
    ensures var first, body := Spliced(notes, section), Stripped(notes).value;
      && (!At(body, 0, LEGACY) ==> Spliced(first.value, section) == first && Stripped(first.value) == Ok(body))
      && (Shaped(section) && At(body, 0, LEGACY) ==> Spliced(first.value, section) != first)
  {
    var body := Stripped(notes).value;
    var v := Index(body, VERIFY).value;
    FrontHasNoHeading(notes, v);
    assert body == body[..v] + body[v..];
    AtShift(body[..v], body[v..], 0, VERIFY);
    SecondPass(body[..v], section, body[v..]);
    if Shaped(section) && At(body, 0, LEGACY) {
      LegacyStart(body[..v], body[v..]);
      LegacyShrinks(body[..v], section, body[v..]);
    }
  }

  lemma SecondPass(front: string, section: string, rest: string)
    requires NoHeading(front) && Spliceable(section) && At(rest, 0, VERIFY)
    ensures !At(front + rest, 0, LEGACY) ==> Stripped(front + section + "\n" + rest) == Ok(front + rest)
  {
    var tail := section + "\n" + rest;
    assert front + section + "\n" + rest == front + tail;
    assert tail == section + ("\n" + rest);
    AtWithin(section, "\n" + rest, 0, HEADING);
    LegacyStart(front, rest);
    LegacyStart(front, tail);
    DropInserted(front, section, rest);
  }

  ghost predicate FirstAt(s: string, k: nat, part: string) {
    At(s, k, part) && forall j: nat | j < k :: !At(s, j, part)
  }

  /** What is left when a legacy table at the front is taken out, up to the next heading. */
  ghost predicate LegacyCut(notes: string, body: string) {
    if At(notes, 0, LEGACY) then exists k: nat :: FirstAt(notes, k, NEXT) && body == notes[k + 1..] else body == notes
  }

  /** What is left when the first packages section is taken out, up to the first verification heading after it. */
  ghost predicate PackagesCut(body: string, rest: string) {
    if NoHeading(body) then rest == body
    else exists k: nat, n: nat ::
      FirstAt(body, k, HEADING) && FirstAt(body[k..], n, BEFORE_VERIFY) && rest == body[..k] + body[k + n + 1..]
  }

  /** The splice takes out these two and puts the section before the first verification heading of the rest;
      it writes nothing else and drops nothing else. */
  lemma SpliceMeans(notes: string, section: string) returns (body: string, rest: string, v: nat)
    requires Spliced(notes, section).Ok?
    ensures LegacyCut(notes, body) && PackagesCut(body, rest) && FirstAt(rest, v, VERIFY)
    ensures Spliced(notes, section) == Ok(rest[..v] + section + "\n" + rest[v..])
  {
    body, rest := DropLegacy(notes).value, Stripped(notes).value;
    v := Index(rest, VERIFY).value;
    LegacyMeans(notes);
    PackagesMean(body);
  }

  lemma LegacyMeans(notes: string)
    requires DropLegacy(notes).Ok?
    ensures LegacyCut(notes, DropLegacy(notes).value)
  {
    if At(notes, 0, LEGACY) {
      assert FirstAt(notes, Index(notes, NEXT).value, NEXT);
    }
  }

  lemma PackagesMean(body: string)
    requires DropPackages(body).Ok?
    ensures PackagesCut(body, DropPackages(body).value)
  {
    var start := Index(body, HEADING);
    if start.Some? {
      var end := Index(body[start.value..], BEFORE_VERIFY).value;
      assert FirstAt(body, start.value, HEADING) && FirstAt(body[start.value..], end, BEFORE_VERIFY);
    }
  }

  /** And it succeeds whenever there is such a rest with a verification heading. */
  lemma SpliceSucceeds(notes: string, section: string, body: string, rest: string, v: nat)
    requires LegacyCut(notes, body) && PackagesCut(body, rest) && At(rest, v, VERIFY)
    ensures Spliced(notes, section).Ok?
  {
    LegacyOnly(notes, body);
    PackagesOnly(body, rest);
  }

  lemma LegacyOnly(notes: string, body: string)
    requires LegacyCut(notes, body)
    ensures DropLegacy(notes) == Ok(body)
  {
    if At(notes, 0, LEGACY) {
      var k: nat :| FirstAt(notes, k, NEXT) && body == notes[k + 1..];
      OneFirst(notes, k, NEXT);
    }
  }

  lemma PackagesOnly(body: string, rest: string)
    requires PackagesCut(body, rest)
    ensures DropPackages(body) == Ok(rest)
  {
    if !NoHeading(body) {
      var k: nat, n: nat :|
        FirstAt(body, k, HEADING) && FirstAt(body[k..], n, BEFORE_VERIFY) && rest == body[..k] + body[k + n + 1..];
      OnlyCut(body, k, n);
    }
  }

  lemma OnlyCut(body: string, k: nat, n: nat)
    requires FirstAt(body, k, HEADING) && FirstAt(body[k..], n, BEFORE_VERIFY)
    ensures DropPackages(body) == Ok(body[..k] + body[k + n + 1..])
  {
    OneFirst(body, k, HEADING);
    OneFirst(body[k..], n, BEFORE_VERIFY);
  }

  lemma OneFirst(s: string, k: nat, part: string)
    requires FirstAt(s, k, part)
    ensures Index(s, part) == Some(k)
  {
  }

  /** The failing family is real: an old section followed by a second legacy heading. */
  lemma LegacyTwice(section: string)
    requires Shaped(section)
    ensures var notes := LEGACY + "\n" + LEGACY + VERIFY;
      Spliced(notes, section).Ok? && Spliced(Spliced(notes, section).value, section) != Spliced(notes, section)
  {
    var notes := LEGACY + "\n" + LEGACY + VERIFY;
    var body := LEGACY + VERIFY;
    StripsOneLegacy(notes, body);
    assert NoHeading(body) by {
      forall k: nat ensures !At(body, k, HEADING) {
        assert 'P' !in LEGACY && 'P' !in VERIFY && HEADING[3] == 'P';
        AtFails(body, k, HEADING, 3);
      }
    }
    assert At(body, 23, VERIFY) && At(body, 0, LEGACY) by {
      assert body[23..33] == VERIFY && body[0..23] == LEGACY;
    }
    ShapedSpliceable(section);
    SecondRun(notes, section);
  }

  lemma StripsOneLegacy(notes: string, body: string)
    requires body == LEGACY + VERIFY && notes == LEGACY + "\n" + body
    ensures DropLegacy(notes) == Ok(body)
  {
    assert notes[0..23] == LEGACY && notes[24..] == body && notes[22] == notes[23] == '\n';
    forall k: nat | k < 23 ensures !At(notes, k, NEXT) {
      if k < 22 {
        LegacyNewline(k);
        assert notes[k] == LEGACY[k];
      }
      AtFails(notes, k, NEXT, if k < 22 then 0 else 1);
    }
    assert At(notes, 23, NEXT) by {
      assert body[0] == '#' && body[1] == '#' && body[2] == LEGACY_NAME[0] == ' ';
      assert notes[23..27] == ['\n', body[0], body[1], body[2]];
    }
  }

  lemma LegacyNewline(k: nat)
    requires k < 22
    ensures LEGACY[k] != '\n'
  {
    var words := " Included components";
    assert LEGACY_NAME == words + "\n" && '\n' !in words;
    if k >= 2 {
      assert LEGACY[k] == LEGACY_NAME[k - 2] == words[k - 2];
    }
  }

  // ---------------------------------------------------------------------------------------
  // Building the section

  datatype Component = Component(name: string, version: string)

  /** The fixed sentence under the heading, display name and runtime kernel of each flavour, the
      shared packages and the extensions. */
  datatype Release =
    Release(intro: string, flavours: seq<Component>, packages: seq<Component>, extensions: seq<Component>)

  function Cells(row: string, cells: seq<string>): string {
    if cells == [] then row else Cells(row, cells[..|cells| - 1]) + " " + cells[|cells| - 1] + " |"
  }

  function Row(c: Component): string {
    "| " + c.name + " | `" + c.version + "` |"
  }

  function Rows(cs: seq<Component>): seq<string> {
    seq(|cs|, i requires 0 <= i < |cs| => Row(cs[i]))
  }

  function NameOf(c: Component): string {
    c.name
  }

  function Intro(sentence: string): seq<string> {
    ["", sentence, "", "### Kernels", ""]
  }

  const VERSIONS: seq<string> := ["", "### Versions", "", "| Package | Version |", "| --- | --- |"]

  const EXTENSIONS: seq<string> := ["", "### Extensions", "", "| Extension | Version |", "| --- | --- |"]

  function Names(flavours: seq<Component>): seq<string> {
    seq(|flavours|, i requires 0 <= i < |flavours| => flavours[i].name)
  }

  function Quoted(flavours: seq<Component>): seq<string> {
    seq(|flavours|, i requires 0 <= i < |flavours| => "`" + flavours[i].version + "`")
  }

  function KernelTable(flavours: seq<Component>): seq<string> {
    [ Cells("| Package |", Names(flavours)), Cells("| --- |", seq(|flavours|, i => "---")),
      Cells("| Kernel |", Quoted(flavours))]
  }

  function Lines(r: Release): seq<string> {
    Intro(r.intro) + KernelTable(r.flavours)
    + VERSIONS + Rows(r.packages)
    + EXTENSIONS + Rows(SortBy(r.extensions, NameOf))
  }

  function Lined(lines: seq<string>): string {
    if lines == [] then "" else lines[0] + "\n" + Lined(lines[1..])
  }

  function Section(r: Release): string {
    "## Packages" + "\n" + Lined(Lines(r))
  }

  ghost predicate OneLiner(cs: seq<Component>) {
    forall c | c in cs :: '\n' !in c.name && '\n' !in c.version
  }

  /** A line of text that is not a second-level heading. */
  ghost predicate Tame(line: string) {
    '\n' !in line && !("## " <= line)
  }

  lemma {:induction false} LinedTame(first: string, rest: seq<string>, k: nat)
    requires '\n' !in first && forall l | l in rest :: Tame(l)
    ensures !At(first + "\n" + Lined(rest), k, NEXT)
    decreases |rest|
  {
    if k == |first| {
      TameAfterLine(first, rest);
    } else if k < |first| {
      InsideLine(first, "\n" + Lined(rest), k);
      assert first + "\n" + Lined(rest) == first + ("\n" + Lined(rest));
    } else {
      AtShift(first + "\n", Lined(rest), k - |first| - 1, NEXT);
      if rest == [] {
        InsideLine("", "", k - |first| - 1);
      } else {
        assert rest[0] in rest && forall l | l in rest[1..] :: l in rest;
        LinedTame(rest[0], rest[1..], k - |first| - 1);
      }
    }
  }

  lemma InsideLine(line: string, more: string, k: nat)
    requires '\n' !in line && (k < |line| || line + more == "")
    ensures !At(line + more, k, NEXT)
  {
    assert NEXT[0] == '\n';
    AtFails(line + more, k, NEXT, 0);
  }

  /** The newline that ends a line is not followed by a heading. */
  lemma TameAfterLine(first: string, rest: seq<string>)
    requires forall l | l in rest :: Tame(l)
    ensures !At(first + "\n" + Lined(rest), |first|, NEXT)
  {
    var s := first + "\n" + Lined(rest);
    assert s[|first| + 1..] == Lined(rest);
    if rest != [] {
      assert rest[0] in rest;
      TameStart(rest[0], "\n" + Lined(rest[1..]));
      assert Lined(rest) == rest[0] + ("\n" + Lined(rest[1..]));
    }
    NextNeedsHeading(s, |first|);
  }

  lemma NextNeedsHeading(s: string, k: nat)
    requires k < |s| && !("## " <= s[k + 1..])
    ensures !At(s, k, NEXT)
  {
    assert NEXT[1..] == "## ";
    if k + 4 <= |s| {
      assert s[k..k + 4][1..] == s[k + 1..][..3];
    }
  }

  lemma TameStart(l: string, more: string)
    requires Tame(l) && more != [] && more[0] == '\n'
    ensures !("## " <= l + more)
  {
    if |l| >= 3 {
      assert (l + more)[..3] == l[..3];
    } else {
      assert (l + more)[|l|] == '\n' && '\n' !in "## ";
    }
  }

  lemma {:induction false} CellsFacts(row: string, cells: seq<string>)
    requires row != [] && row[0] == '|' && row[|row| - 1] == '|' && '\n' !in row
    requires forall c | c in cells :: '\n' !in c
    ensures var r := Cells(row, cells); r != [] && r[0] == '|' && r[|r| - 1] == '|' && '\n' !in r
  {
    if cells != [] {
      var n := |cells| - 1;
      assert cells[n] in cells && forall c | c in cells[..n] :: c in cells;
      CellsFacts(row, cells[..n]);
      assert '\n' !in " " && '\n' !in " |";
    }
  }

  lemma RowFacts(c: Component)
    requires '\n' !in c.name && '\n' !in c.version
    ensures var r := Row(c); Tame(r) && r[|r| - 1] == '|'
  {
    assert Row(c)[0] == '|' && "## "[0] == '#';
    assert '\n' !in "| " && '\n' !in " | `" && '\n' !in "` |";
  }

  lemma KernelTableTame(flavours: seq<Component>)
    requires OneLiner(flavours)
    ensures forall l | l in KernelTable(flavours) :: Tame(l)
  {
    assert forall i | 0 <= i < |flavours| :: flavours[i] in flavours;
    assert '\n' !in "`" && '\n' !in "---" && "## "[0] == '#';
    CellsFacts("| Package |", Names(flavours));
    CellsFacts("| --- |", seq(|flavours|, i => "---"));
    CellsFacts("| Kernel |", Quoted(flavours));
  }

  lemma RowsTame(cs: seq<Component>)
    requires OneLiner(cs)
    ensures forall l | l in Rows(cs) :: Tame(l) && l[|l| - 1] == '|'
  {
    forall i | 0 <= i < |cs| ensures Tame(Rows(cs)[i]) && Rows(cs)[i][|Rows(cs)[i]| - 1] == '|' {
      assert cs[i] in cs;
      RowFacts(cs[i]);
    }
  }

  lemma {:induction false} LinedEnd(lines: seq<string>, last: string)
    requires last != [] && last[|last| - 1] == '|'
    ensures HasSuffix(Lined(lines + [last]), "|\n")
  {
    if lines == [] {
      assert Lined([last]) == last + "\n" + Lined([]);
      assert (last + "\n")[|last| - 1..] == "|\n";
    } else {
      LinedEnd(lines[1..], last);
      assert (lines + [last])[1..] == lines[1..] + [last];
      var tail := Lined(lines[1..] + [last]);
      var s := lines[0] + "\n" + tail;
      assert s[|s| - 2..] == tail[|tail| - 2..];
    }
  }

  /** From versions and names that are one line each the builder makes a section the splice can
      take out again. */
  lemma SectionShaped(r: Release)
    requires Tame(r.intro) && OneLiner(r.flavours) && OneLiner(r.packages) && OneLiner(r.extensions)
    ensures Shaped(Section(r))
  {
    LinesTame(r);
    LastLine(r);
    LinedShaped(Lines(r));
  }

  lemma LinedShaped(lines: seq<string>)
    requires lines != [] && forall l | l in lines :: Tame(l)
    requires var l := lines[|lines| - 1]; l != [] && l[|l| - 1] == '|'
    ensures Shaped("## Packages" + "\n" + Lined(lines))
  {
    var text := Lined(lines);
    var section := "## Packages" + "\n" + text;
    forall k: nat ensures !At(section, k, NEXT) {
      LinedTame("## Packages", lines, k);
    }
    var n := |lines| - 1;
    assert lines == lines[..n] + [lines[n]];
    LinedEnd(lines[..n], lines[n]);
    assert section[|section| - 2..] == text[|text| - 2..];
    assert "## Packages" + "\n" == HEADING;
    assert section[..12] == HEADING;
  }

  lemma LinesTame(r: Release)
    requires Tame(r.intro) && OneLiner(r.flavours) && OneLiner(r.packages) && OneLiner(r.extensions)
    ensures forall l | l in Lines(r) :: Tame(l)
  {
    SortedOneLiner(r.extensions);
    KernelTableTame(r.flavours);
    RowsTame(r.packages);
    RowsTame(SortBy(r.extensions, NameOf));
    IntroTame(r.intro);
    VersionsTame();
    ExtensionsTame();
  }

  /** The text ends with a table row. */
  lemma LastLine(r: Release)
    ensures var l := Lines(r)[|Lines(r)| - 1]; l != [] && l[|l| - 1] == '|'
  {
    var sorted := SortBy(r.extensions, NameOf);
    var rows := Rows(sorted);
    if sorted == [] {
      assert Lines(r)[|Lines(r)| - 1] == EXTENSIONS[4] == "| --- | --- |";
    } else {
      assert Lines(r)[|Lines(r)| - 1] == rows[|rows| - 1] == Row(sorted[|sorted| - 1]);
    }
  }

  lemma TameLine(l: string)
    requires '\n' !in l && (l == "" || l[0] != '#' || (|l| > 2 && l[2] != ' '))
    ensures Tame(l)
  {
    assert "## "[0] == '#' && "## "[2] == ' ';
  }

  lemma IntroTame(sentence: string)
    requires Tame(sentence)
    ensures forall l | l in Intro(sentence) :: Tame(l)
  {
    TameLine("");
    TameLine("### Kernels");
  }

  lemma VersionsTame()
    ensures forall l | l in VERSIONS :: Tame(l)
  {
    TameLine("");
    TameLine("### Versions");
    TameLine("| Package | Version |");
    TameLine("| --- | --- |");
  }

  lemma ExtensionsTame()
    ensures forall l | l in EXTENSIONS :: Tame(l)
  {
    TameLine("");
    TameLine("### Extensions");
    TameLine("| Extension | Version |");
    TameLine("| --- | --- |");
  }

  lemma SortedOneLiner(cs: seq<Component>)
    requires OneLiner(cs)
    ensures OneLiner(SortBy(cs, NameOf))
  {
    forall c | c in SortBy(cs, NameOf) ensures c in cs {
      assert c in multiset(SortBy(cs, NameOf));
      assert c in multiset(cs);
    }
  }

  /** The order in which the extension map is walked does not show. */
  lemma WalkOrderDoesNotShow(r: Release, other: Release)
    requires other == r.(extensions := other.extensions) && multiset(other.extensions) == multiset(r.extensions)
    requires forall x, y | x in r.extensions && y in r.extensions && x.name == y.name :: x == y
    ensures Section(other) == Section(r)
  {
    var a, b := SortBy(r.extensions, NameOf), SortBy(other.extensions, NameOf);
    assert multiset(a) == multiset(b);
    forall x | x in a ensures x in r.extensions {
      assert x in multiset(r.extensions);
    }
    SortedUnique(a, b, NameOf);
  }

  // ---------------------------------------------------------------------------------------
  // What the section says

  /** The section read line by line, after its heading. */
  lemma {:induction false} LinedSplits(lines: seq<string>)
    requires forall l | l in lines :: '\n' !in l
    ensures Split(Lined(lines), '\n') == lines + [""]
  {
    if lines == [] {
    } else {
      assert lines[0] in lines && forall l | l in lines[1..] :: l in lines;
      LinedSplits(lines[1..]);
      assert Lined(lines) == lines[0] + ['\n'] + Lined(lines[1..]);
      SplitAfter(lines[0], '\n', Lined(lines[1..]));
      assert [lines[0]] + (lines[1..] + [""]) == lines + [""];
    }
  }

  lemma SectionSplits(r: Release)
    requires Tame(r.intro) && OneLiner(r.flavours) && OneLiner(r.packages) && OneLiner(r.extensions)
    ensures Split(Section(r), '\n') == ["## Packages"] + Lines(r) + [""]
  {
    LinesTame(r);
    FirstSplits("## Packages", Lines(r));
  }

  lemma FirstSplits(first: string, lines: seq<string>)
    requires '\n' !in first && forall l | l in lines :: '\n' !in l
    ensures Split(first + "\n" + Lined(lines), '\n') == [first] + lines + [""]
  {
    LinedSplits(lines);
    SplitAfter(first, '\n', Lined(lines));
    assert first + "\n" + Lined(lines) == first + ['\n'] + Lined(lines);
    assert [first] + (lines + [""]) == [first] + lines + [""];
  }

  /** From one line on there is a row for each of the components, with its name and its version. */
  ghost predicate Listed(lines: seq<string>, at: nat, cs: seq<Component>) {
    && at + |cs| <= |lines|
    && forall k | 0 <= k < |cs| :: lines[at + k] == "| " + cs[k].name + " | `" + cs[k].version + "` |"
  }

  /** Every package has its row, in the order given, and every extension has its row, by name, each with its
      own version; there is no further line. */
  lemma SectionLists(r: Release) returns (lines: seq<string>, sorted: seq<Component>)
    requires Tame(r.intro) && OneLiner(r.flavours) && OneLiner(r.packages) && OneLiner(r.extensions)
    ensures lines == Split(Section(r), '\n') && |lines| == 20 + |r.packages| + |r.extensions|
    ensures multiset(sorted) == multiset(r.extensions) && |sorted| == |r.extensions| && SortedBy(sorted, NameOf)
    ensures Listed(lines, 14, r.packages) && Listed(lines, 19 + |r.packages|, sorted)
  {
    SectionSplits(r);
    lines, sorted := Split(Section(r), '\n'), SortBy(r.extensions, NameOf);
    Places("## Packages", Intro(r.intro) + KernelTable(r.flavours) + VERSIONS, r.packages, EXTENSIONS, sorted);
  }

  lemma Places(first: string, above: seq<string>, cs: seq<Component>, between: seq<string>, more: seq<Component>)
    requires |above| == 13 && |between| == 5
    ensures var lines := [first] + (above + Rows(cs) + between + Rows(more)) + [""];
      |lines| == 20 + |cs| + |more| && Listed(lines, 14, cs) && Listed(lines, 19 + |cs|, more)
  {
    var lines := [first] + (above + Rows(cs) + between + Rows(more)) + [""];
    forall k | 0 <= k < |cs| ensures lines[14 + k] == Row(cs[k]) {
      assert lines[14 + k] == Rows(cs)[k];
    }
    forall k | 0 <= k < |more| ensures lines[19 + |cs| + k] == Row(more[k]) {
      assert lines[19 + |cs| + k] == Rows(more)[k];
    }
  }

  function Padded(cells: seq<string>): seq<string> {
    seq(|cells|, i requires 0 <= i < |cells| => " " + cells[i] + " ")
  }

  lemma TrailingBar(s: string)
    requires s != [] && s[|s| - 1] == '|'
    ensures Split(s, '|') == Split(s[..|s| - 1], '|') + [""]
  {
    SplitBoth(s[..|s| - 1], '|', "");
    assert s == s[..|s| - 1] + ['|'] + "";
  }

  /** A cell after a bar adds one part. */
  lemma OneMoreCell(before: string, parts: seq<string>, cell: string)
    requires before != [] && before[|before| - 1] == '|' && Split(before, '|') == parts + [""] && '|' !in cell
    ensures Split(before + cell + "|", '|') == parts + [cell, ""]
  {
    TrailingBar(before);
    SameFront(Split(before[..|before| - 1], '|'), parts, "");
    BetweenBars(before[..|before| - 1], cell);
    BarText(before, cell);
    assert parts + [cell] + [""] == parts + [cell, ""];
  }

  lemma BetweenBars(line: string, cell: string)
    requires '|' !in cell
    ensures Split(line + ['|'] + cell + ['|'], '|') == Split(line, '|') + [cell] + [""]
  {
    TrailingBar(line + ['|'] + cell + ['|']);
    assert (line + ['|'] + cell + ['|'])[..|line| + 1 + |cell|] == line + ['|'] + cell;
    SplitBoth(line, '|', cell);
    SplitWhole(cell, '|');
  }

  lemma BarText(before: string, cell: string)
    requires before != [] && before[|before| - 1] == '|'
    ensures before + cell + "|" == before[..|before| - 1] + ['|'] + cell + ['|']
  {
    assert before == before[..|before| - 1] + ['|'];
  }

  lemma {:induction false} CellsSplit(row: string, cells: seq<string>)
    requires forall c | c in cells :: '|' !in c
    ensures Split(Cells(row + "|", cells), '|') == Split(row, '|') + Padded(cells) + [""]
  {
    if cells == [] {
      SplitBoth(row, '|', "");
      assert row + "|" == row + ['|'] + "" && Split(row, '|') + [] == Split(row, '|');
    } else {
      var n := |cells| - 1;
      assert cells[n] in cells && forall c | c in cells[..n] :: c in cells;
      CellsSplit(row, cells[..n]);
      CellsEnd(row, cells[..n]);
      var cell := " " + cells[n] + " ";
      OneMoreCell(Cells(row + "|", cells[..n]), Split(row, '|') + Padded(cells[..n]), cell);
      CellText(Cells(row + "|", cells[..n]), cells[n]);
      assert Padded(cells) == Padded(cells[..n]) + [cell];
    }
  }

  lemma CellText(before: string, cell: string)
    ensures before + " " + cell + " |" == before + (" " + cell + " ") + "|"
  {
    assert " |" == " " + "|";
  }

  lemma SameFront(a: seq<string>, b: seq<string>, last: string)
    requires a + [last] == b + [last]
    ensures a == b
  {
    assert |a + [last]| == |b + [last]|;
    assert a == (a + [last])[..|a|] && b == (b + [last])[..|b|];
  }

  lemma CellsEnd(row: string, cells: seq<string>)
    ensures var r := Cells(row + "|", cells); r != [] && r[|r| - 1] == '|'
  {
  }

  lemma KernelLines(r: Release)
    requires Tame(r.intro) && OneLiner(r.flavours) && OneLiner(r.packages) && OneLiner(r.extensions)
    ensures |Split(Section(r), '\n')| > 8
    ensures Split(Section(r), '\n')[6] == Cells("| Package |", Names(r.flavours))
    ensures Split(Section(r), '\n')[8] == Cells("| Kernel |", Quoted(r.flavours))
  {
    SectionSplits(r);
    var lines := Split(Section(r), '\n');
    assert lines[6] == Lines(r)[5] == KernelTable(r.flavours)[0];
    assert lines[8] == Lines(r)[7] == KernelTable(r.flavours)[2];
    assert KernelTable(r.flavours)[0] == Cells("| Package |", Names(r.flavours));
    assert KernelTable(r.flavours)[2] == Cells("| Kernel |", Quoted(r.flavours));
  }

  /** The parts between the bars: nothing, the first column, one column a cell, nothing. */
  ghost predicate InColumns(columns: seq<string>, cells: seq<string>) {
    |columns| == 3 + |cells| && forall k | 0 <= k < |cells| :: columns[2 + k] == " " + cells[k] + " "
  }

  /** In the kernel table each flavour has one column, with its name in the head row and its kernel version below. */
  lemma KernelColumns(r: Release) returns (head: seq<string>, kernels: seq<string>)
    requires Tame(r.intro) && OneLiner(r.flavours) && OneLiner(r.packages) && OneLiner(r.extensions)
    requires forall c | c in r.flavours :: '|' !in c.name && '|' !in c.version
    ensures |Split(Section(r), '\n')| > 8
    ensures head == Split(Split(Section(r), '\n')[6], '|') && kernels == Split(Split(Section(r), '\n')[8], '|')
    ensures InColumns(head, Names(r.flavours)) && InColumns(kernels, Quoted(r.flavours))
  {
    KernelLines(r);
    head, kernels := Split(Split(Section(r), '\n')[6], '|'), Split(Split(Section(r), '\n')[8], '|');
    NoBars(r.flavours);
    Columns("| Package ", Names(r.flavours));
    Columns("| Kernel ", Quoted(r.flavours));
    assert "| Package " + "|" == "| Package |" && "| Kernel " + "|" == "| Kernel |";
  }

  lemma NoBars(flavours: seq<Component>)
    requires forall c | c in flavours :: '|' !in c.name && '|' !in c.version
    ensures forall c | c in Names(flavours) :: '|' !in c
    ensures forall c | c in Quoted(flavours) :: '|' !in c
  {
    assert forall i | 0 <= i < |flavours| :: flavours[i] in flavours;
    assert '|' !in "`";
  }

  lemma Columns(row: string, cells: seq<string>)
    requires row == "| Package " || row == "| Kernel "
    requires forall c | c in cells :: '|' !in c
    ensures InColumns(Split(Cells(row + "|", cells), '|'), cells)
  {
    CellsSplit(row, cells);
    assert row[0] == '|' && '|' !in row[1..];
    FirstColumn(row);
    PaddedColumns(Split(row, '|'), cells);
  }

  lemma FirstColumn(row: string)
    requires row != [] && row[0] == '|' && '|' !in row[1..]
    ensures |Split(row, '|')| == 2
  {
    SplitAfter("", '|', row[1..]);
    SplitWhole(row[1..], '|');
    assert row == "" + ['|'] + row[1..];
  }

  lemma PaddedColumns(first: seq<string>, cells: seq<string>)
    requires |first| == 2
    ensures InColumns(first + Padded(cells) + [""], cells)
  {
    var columns := first + Padded(cells) + [""];
    forall k | 0 <= k < |cells| ensures columns[2 + k] == " " + cells[k] + " " {
      assert columns[2 + k] == Padded(cells)[k];
    }
  }
}
