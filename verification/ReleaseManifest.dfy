/** The release manifest, a shell fragment of defaults: how a line is read as an assignment, how
    the whole text is read, and how selected values are rewritten in place. */
module ReleaseManifest {
  import opened Results
  import opened Text

  const OPEN := ": \"${"
  const CLOSE := "}\""
  const PREFIX := "KATL_KUBERNETES_"

  datatype Assigned = Assigned(key: string, value: string)

  /** `: "${KEY:=value}"`, or `KATL_KUBERNETES_X=value` without a substitution in the value. */
  function Assignment(line: string): Option<Assigned> {
    var trimmed := Trim(line);
    if Wrapped(trimmed) then
      var inner := Inner(trimmed);
      var parts := Cut(inner, ":=");
      if parts.Some? then Some(Assigned(parts.value.0, parts.value.1)) else Plain(inner)
    else Plain(trimmed)
  }

  predicate Wrapped(s: string) {
    OPEN <= s && HasSuffix(s, CLOSE)
  }

  function Inner(s: string): string
    requires Wrapped(s)
  {
    assert |s| >= 7 by {
      assert s[4] == OPEN[4] == '{' && s[|s| - 2] == CLOSE[0] == '}' && s[3] == OPEN[3] == '$';
    }
    s[5..|s| - 2]
  }

  predicate IsQuote(c: char) {
    c == '"'
  }

  function Plain(line: string): Option<Assigned> {
    var parts := Cut(line, "=");
    if parts.Some? && PREFIX <= parts.value.0 && Index(parts.value.1, "${").None?
    then Some(Assigned(parts.value.0, DropBoth(parts.value.1, IsQuote)))
    else None
  }

  predicate Quoted(line: string) {
    OPEN <= Trim(line)
  }

  /** The new line keeps the syntax of the one it replaces. */
  function Rewrite(line: string, key: string, value: string): string {
    if Quoted(line) then OPEN + key + ":=" + value + CLOSE else key + "=" + value
  }

  // ---------------------------------------------------------------------------------------
  // Reading and rewriting all lines, for any line syntax

  type Reader = string -> Option<Assigned>

  /** The new line for an old one, a key and a value. */
  type Writer = (string, string, string) -> string

  function Edit(line: string, replacements: map<string, string>, read: Reader, write: Writer): string {
    var a := read(line);
    if a.Some? && a.value.key in replacements then write(line, a.value.key, replacements[a.value.key]) else line
  }

  function Edited(lines: seq<string>, replacements: map<string, string>, read: Reader, write: Writer): (r: seq<string>)
    ensures |r| == |lines| && forall i | 0 <= i < |lines| :: r[i] == Edit(lines[i], replacements, read, write)
  {
    seq(|lines|, i requires 0 <= i < |lines| => Edit(lines[i], replacements, read, write))
  }

  /** Later assignments override earlier ones. */
  function Values(lines: seq<string>, read: Reader): map<string, string> {
    if lines == [] then map[]
    else
      var before := Values(lines[..|lines| - 1], read);
      var a := read(lines[|lines| - 1]);
      if a.Some? then before[a.value.key := a.value.value] else before
  }

  method Collect(lines: seq<string>, read: Reader) returns (values: map<string, string>)
    ensures values == Values(lines, read)
  {
    values := map[];
    for i := 0 to |lines|
      invariant values == Values(lines[..i], read)
    {
      assert lines[..i + 1][..i] == lines[..i];
      var a := read(lines[i]);
      if a.Some? {
        values := values[a.value.key := a.value.value];
      }
    }
    assert lines[..|lines|] == lines;
  }

  /** Succeeds exactly when every key has an assignment; a failure names one that has none. */
  method EditAll(before: seq<string>, replacements: map<string, string>, read: Reader, write: Writer)
    returns (r: Result<seq<string>, string>)
    ensures r.Ok? <==> replacements.Keys <= Values(before, read).Keys
    ensures r.Ok? ==> r.value == Edited(before, replacements, read, write)
    ensures r.Err? ==> r.error in replacements && r.error !in Values(before, read)
  {
    var lines, seen := EditEach(before, replacements, read, write);
    var keys := replacements.Keys;
    while keys != {}
      invariant keys <= replacements.Keys && replacements.Keys - keys <= seen
    {
      var key :| key in keys;
      if key !in seen {
        return Err(key);
      }
      keys := keys - {key};
    }
    assert replacements.Keys - {} == replacements.Keys;
    return Ok(lines);
  }

  lemma KeysStep(lines: seq<string>, i: nat, read: Reader)
    requires i < |lines|
    ensures Values(lines[..i + 1], read).Keys ==
      Values(lines[..i], read).Keys + (if read(lines[i]).Some? then {read(lines[i]).value.key} else {})
  {
    assert lines[..i + 1][..i] == lines[..i];
  }

  method EditEach(before: seq<string>, replacements: map<string, string>, read: Reader, write: Writer)
    returns (lines: seq<string>, seen: set<string>)
    ensures lines == Edited(before, replacements, read, write)
    ensures seen == Values(before, read).Keys * replacements.Keys
  {
    lines, seen := before, {};
    ghost var goal := Edited(before, replacements, read, write);
    for i := 0 to |before|
      invariant |lines| == |before|
      invariant forall j | 0 <= j < |before| :: lines[j] == if j < i then goal[j] else before[j]
      invariant seen == Values(before[..i], read).Keys * replacements.Keys
    {
      KeysStep(before, i, read);
      var a := read(lines[i]);
      if a.Some? && a.value.key in replacements {
        lines := lines[i := write(lines[i], a.value.key, replacements[a.value.key])];
        seen := seen + {a.value.key};
      }
    }
    assert before[..|before|] == before;
  }

  function Overridden(a: Option<Assigned>, replacements: map<string, string>): Option<Assigned> {
    if a.Some? && a.value.key in replacements then Some(a.value.(value := replacements[a.value.key])) else a
  }

  /** The edited line reads as intended, is one line, and is its own edit. */
  ghost predicate Faithful(line: string, replacements: map<string, string>, read: Reader, write: Writer) {
    var out := Edit(line, replacements, read, write);
    '\n' !in out && Edit(out, replacements, read, write) == out && read(out) == Overridden(read(line), replacements)
  }

  lemma {:induction false} EditedValues(
      lines: seq<string>, replacements: map<string, string>, read: Reader, write: Writer)
    requires forall line | line in lines :: Faithful(line, replacements, read, write)
    ensures var was, now := Values(lines, read), Values(Edited(lines, replacements, read, write), read);
      && now.Keys == was.Keys
      && forall k | k in was :: now[k] == if k in replacements then replacements[k] else was[k]
  {
    if lines != [] {
      var n := |lines| - 1;
      assert forall line | line in lines[..n] :: line in lines;
      EditedValues(lines[..n], replacements, read, write);
      assert Edited(lines, replacements, read, write)[..n] == Edited(lines[..n], replacements, read, write);
      assert lines[n] in lines && Faithful(lines[n], replacements, read, write);
    }
  }

  lemma EditThenRead(lines: seq<string>, replacements: map<string, string>, read: Reader, write: Writer)
    requires lines != [] && forall line | line in lines :: Faithful(line, replacements, read, write)
    requires replacements.Keys <= Values(lines, read).Keys
    ensures var done := Edited(lines, replacements, read, write);
      && Split(Join(done, '\n'), '\n') == done
      && Values(done, read) == Values(lines, read) + replacements
      && Edited(done, replacements, read, write) == done
  {
    var done := Edited(lines, replacements, read, write);
    forall i | 0 <= i < |done| ensures '\n' !in done[i] && Edit(done[i], replacements, read, write) == done[i] {
      assert lines[i] in lines && Faithful(lines[i], replacements, read, write);
    }
    SplitJoin(done, '\n');
    EditedValues(lines, replacements, read, write);
  }

  // ---------------------------------------------------------------------------------------
  // The manifest

  method ReadValues(text: string) returns (values: map<string, string>)
    ensures values == Values(Split(text, '\n'), Assignment)
  {
    values := Collect(Split(text, '\n'), Assignment);
  }

  method ReplaceValues(text: string, replacements: map<string, string>) returns (r: Result<string, string>)
    ensures r.Ok? <==> replacements.Keys <= Values(Split(text, '\n'), Assignment).Keys
    ensures r.Ok? ==> r.value == Join(Edited(Split(text, '\n'), replacements, Assignment, Rewrite), '\n')
    ensures r.Err? ==> r.error in replacements && r.error !in Values(Split(text, '\n'), Assignment)
  {
    var lines := EditAll(Split(text, '\n'), replacements, Assignment, Rewrite);
    if lines.Err? {
      return Err(lines.error);
    }
    return Ok(Join(lines.value, '\n'));
  }

  // ---------------------------------------------------------------------------------------
  // One line

  /** A value the plain syntax can carry. */
  predicate Clean(v: string) {
    && Index(v, "${").None?
    && (v != [] ==> v[0] != '"' && v[|v| - 1] != '"' && !IsSpace(v[|v| - 1]))
  }

  /** The key of an assignment is a stretch of its line, free of the separator. */
  lemma KeyShape(line: string)
    requires Assignment(line).Some?
    ensures var key := Assignment(line).value.key;
      && (forall c | c in key :: c in line)
      && Index(key, ":=").None?
      && (!Quoted(line) ==> PREFIX <= key && '=' !in key)
  {
    var trimmed := Trim(line);
    TrimWithin(line);
    var part := if Wrapped(trimmed) then Inner(trimmed) else trimmed;
    assert forall c | c in part :: c in trimmed;
    var key := Assignment(line).value.key;
    if Wrapped(trimmed) && Cut(part, ":=").Some? {
      NotInHead(part, ":=");
    } else {
      NotInHead(part, "=");
      NoSeparator(key);
    }
  }

  lemma NoSeparator(key: string)
    requires '=' !in key
    ensures Index(key, ":=").None?
  {
    assert forall k: nat | At(key, k, ":=") :: key[k..k + 2][1] == '=' && key[k + 1] == '=';
  }

  lemma TrimWithin(s: string)
    ensures forall c | c in Trim(s) :: c in s
  {
    DropLeftStops(s, IsSpace);
    DropRightStops(DropLeft(s, IsSpace), IsSpace);
  }

  lemma NotInHead(s: string, sep: string)
    requires sep != "" && Index(s, sep).Some?
    ensures var head := s[..Index(s, sep).value];
      Index(head, sep).None? && (|sep| == 1 ==> sep[0] !in head)
  {
    var head := s[..Index(s, sep).value];
    assert forall k: nat | At(head, k, sep) :: s[k..k + |sep|] == head[k..k + |sep|] && At(s, k, sep);
    if |sep| == 1 {
      forall k | 0 <= k < |head| ensures head[k] != sep[0] {
        assert !At(head, k, sep);
        assert head[k..k + 1] == [head[k]];
      }
    }
  }

  /** Reading back a rewritten line: the quoted syntax carries every value, the plain one exactly
      the clean values. */
  lemma LineRoundTrip(line: string, value: string)
    requires Assignment(line).Some?
    ensures var key := Assignment(line).value.key;
      Assignment(Rewrite(line, key, value)) == Some(Assigned(key, value)) <==> Quoted(line) || Clean(value)
  {
    KeyShape(line);
    var key := Assignment(line).value.key;
    if Quoted(line) {
      QuotedRoundTrip(key, value);
    } else {
      PlainRoundTrip(key, value);
    }
  }

  /** A value the plain syntax loses: its trailing space is not read back. */
  lemma TrailingSpaceIsLost()
    ensures var line, key, value := "KATL_KUBERNETES_MINOR=v1", "KATL_KUBERNETES_MINOR", "v1 ";
      && Assignment(line) == Some(Assigned(key, "v1"))
      && Assignment(Rewrite(line, key, value)) != Some(Assigned(key, value))
  {
    var key := "KATL_KUBERNETES_MINOR";
    assert PREFIX <= key && '=' !in key && key + "=" + "v1" == "KATL_KUBERNETES_MINOR=v1";
    assert Clean("v1") by {
      assert forall k: nat :: At("v1", k, "${") ==> "v1"[k..k + 2][0] == '$';
      assert '$' !in "v1";
    }
    assert "v1 "[2] == ' ' && !Clean("v1 ");
    PlainRoundTrip(key, "v1");
    LineRoundTrip("KATL_KUBERNETES_MINOR=v1", "v1 ");
  }

  lemma QuotedRoundTrip(key: string, value: string)
    requires Index(key, ":=").None?
    ensures Assignment(OPEN + key + ":=" + value + CLOSE) == Some(Assigned(key, value))
    ensures Quoted(OPEN + key + ":=" + value + CLOSE)
  {
    var inner := key + ":=" + value;
    var s := OPEN + key + ":=" + value + CLOSE;
    assert s == OPEN + inner + CLOSE;
    assert s[0] == ':' && s[|s| - 1] == '"';
    Trimmed(s, IsSpace);
    assert s[|s| - 2..] == CLOSE && s[..5] == OPEN;
    assert Inner(s) == inner;
    FirstSeparator(key, value);
    CutJoined(key, ":=", value);
  }

  lemma FirstSeparator(key: string, value: string)
    requires Index(key, ":=").None?
    ensures forall k: nat | k < |key| :: !At(key + ":=" + value, k, ":=")
  {
    var inner := key + ":=" + value;
    assert inner[|key|] == ':';
    forall k: nat | k < |key| ensures !At(inner, k, ":=") {
      assert !At(key, k, ":=");
      assert k + 1 < |key| ==> inner[k..k + 2] == key[k..k + 2];
      if k + 1 == |key| {
        assert inner[k..k + 2][1] == ':' && ":="[1] == '=';
      }
    }
  }

  lemma PlainRoundTrip(key: string, value: string)
    requires PREFIX <= key && '=' !in key
    ensures Assignment(key + "=" + value) == Some(Assigned(key, value)) <==> Clean(value)
    ensures !Quoted(key + "=" + value)
  {
    var kept := DropRight(value, IsSpace);
    PlainTrim(key, value);
    PlainCut(key, kept);
    CarriedExactly(value);
  }

  /** Only trailing spaces of the value are trimmed, and the line is not taken for the quoted syntax. */
  lemma PlainTrim(key: string, value: string)
    requires PREFIX <= key
    ensures Trim(key + "=" + value) == key + "=" + DropRight(value, IsSpace)
    ensures !(OPEN <= Trim(key + "=" + value))
  {
    var s := key + "=" + value;
    assert s[0] == key[0] == PREFIX[0] == 'K';
    assert DropLeft(s, IsSpace) == s;
    DropRightTail(key + "=", value, IsSpace);
    assert (key + "=" + DropRight(value, IsSpace))[0] == 'K' && OPEN[0] == ':';
  }

  lemma PlainCut(key: string, kept: string)
    requires PREFIX <= key && '=' !in key
    ensures Plain(key + "=" + kept)
      == if Index(kept, "${").None? then Some(Assigned(key, DropBoth(kept, IsQuote))) else None
  {
    var t := key + "=" + kept;
    forall k: nat | k < |key| ensures !At(t, k, "=") {
      assert t[k..k + 1] == [key[k]];
    }
    CutJoined(key, "=", kept);
  }

  lemma CarriedExactly(value: string)
    ensures var kept := DropRight(value, IsSpace);
      Index(kept, "${").None? && DropBoth(kept, IsQuote) == value <==> Clean(value)
  {
    var kept := DropRight(value, IsSpace);
    DropRightSame(value, IsSpace);
    DropBothSame(kept, IsQuote);
  }

  /** Trimming on the right stops at a part that does not end in what is trimmed. */
  lemma {:induction false} DropRightTail(a: string, b: string, drop: char -> bool)
    requires a != [] && !drop(a[|a| - 1])
    ensures DropRight(a + b, drop) == a + DropRight(b, drop)
  {
    if b == [] {
      assert a + b == a;
    } else if drop(b[|b| - 1]) {
      DropRightTail(a, b[..|b| - 1], drop);
      assert (a + b)[..|a + b| - 1] == a + b[..|b| - 1];
    }
  }

  // ---------------------------------------------------------------------------------------
  // The whole text

  /** Every line to be rewritten can carry its new value. */
  ghost predicate Fits(lines: seq<string>, replacements: map<string, string>) {
    forall line | line in lines && Assignment(line).Some? && Assignment(line).value.key in replacements ::
      Quoted(line) || Clean(replacements[Assignment(line).value.key])
  }

  ghost predicate OneLine(replacements: map<string, string>) {
    forall k | k in replacements :: '\n' !in replacements[k]
  }

  lemma LineFaithful(line: string, replacements: map<string, string>)
    requires Fits([line], replacements) && OneLine(replacements) && '\n' !in line
    ensures Faithful(line, replacements, Assignment, Rewrite)
  {
    var a := Assignment(line);
    if a.Some? && a.value.key in replacements {
      var key, value := a.value.key, replacements[a.value.key];
      assert line in [line];
      KeyShape(line);
      LineRoundTrip(line, value);
      RewriteTwice(line, key, value);
      RewriteOneLine(line, key, value);
    }
  }

  lemma RewriteOneLine(line: string, key: string, value: string)
    requires '\n' !in key && '\n' !in value
    ensures '\n' !in Rewrite(line, key, value)
  {
    assert '\n' !in OPEN && '\n' !in CLOSE && '\n' !in ":=" && '\n' !in "=";
  }

  lemma RewriteTwice(line: string, key: string, value: string)
    requires Index(key, ":=").None? && (!Quoted(line) ==> PREFIX <= key && '=' !in key)
    ensures Rewrite(Rewrite(line, key, value), key, value) == Rewrite(line, key, value)
  {
    if Quoted(line) {
      QuotedRoundTrip(key, value);
    } else {
      PlainRoundTrip(key, value);
    }
  }

  /** Rewriting and reading undo each other: the rewritten text reads as the old values with the
      replacements on top, every line without a replaced assignment is unchanged, and a second
      rewrite changes nothing. */
  lemma RewriteThenRead(text: string, replacements: map<string, string>)
    requires Fits(Split(text, '\n'), replacements) && OneLine(replacements)
    requires replacements.Keys <= Values(Split(text, '\n'), Assignment).Keys
    ensures
      var lines := Split(text, '\n');
      var out := Join(Edited(lines, replacements, Assignment, Rewrite), '\n');
      var outLines := Split(out, '\n');
      && |outLines| == |lines|
      && Values(outLines, Assignment) == Values(lines, Assignment) + replacements
      && (forall i | 0 <= i < |lines| && Untouched(lines[i], replacements) :: outLines[i] == lines[i])
      && Join(Edited(outLines, replacements, Assignment, Rewrite), '\n') == out
  {
    var lines := Split(text, '\n');
    SplitParts(text, '\n');
    forall line | line in lines ensures Faithful(line, replacements, Assignment, Rewrite) {
      LineFaithful(line, replacements);
    }
    EditThenRead(lines, replacements, Assignment, Rewrite);
  }

  predicate Untouched(line: string, replacements: map<string, string>) {
    var a := Assignment(line);
    a.None? || a.value.key !in replacements
  }
}
