/** The few operations of Go's `strings` package that the models use. */
module Text {
  import opened Results

  /** Unicode white space, as `unicode.IsSpace` has it. */
  predicate IsSpace(c: char) {
    || '\t' <= c <= '\r' || c == ' ' || c == '\U{85}' || c == '\U{a0}' || c == '\U{1680}'
    || '\U{2000}' <= c <= '\U{200a}'
    || c == '\U{2028}' || c == '\U{2029}' || c == '\U{202f}' || c == '\U{205f}' || c == '\U{3000}'
  }

  function DropLeft(s: string, drop: char -> bool): string {
    if s != [] && drop(s[0]) then DropLeft(s[1..], drop) else s
  }

  function DropRight(s: string, drop: char -> bool): string {
    if s != [] && drop(s[|s| - 1]) then DropRight(s[..|s| - 1], drop) else s
  }

  /** Drop from both ends: `strings.TrimSpace`, and `strings.Trim` with one character. */
  function DropBoth(s: string, drop: char -> bool): string {
    DropRight(DropLeft(s, drop), drop)
  }

  function Trim(s: string): string {
    DropBoth(s, IsSpace)
  }

  function Trims(ss: seq<string>): seq<string> {
    seq(|ss|, i requires 0 <= i < |ss| => Trim(ss[i]))
  }

  /** Nothing to trim at either end. */
  predicate Bare(s: string, drop: char -> bool) {
    s != [] ==> !drop(s[0]) && !drop(s[|s| - 1])
  }

  lemma {:induction false} DropLeftStops(s: string, drop: char -> bool)
    ensures var r := DropLeft(s, drop); |r| <= |s| && r == s[|s| - |r|..] && (r != [] ==> !drop(r[0]))
  {
    if s != [] && drop(s[0]) {
      DropLeftStops(s[1..], drop);
    }
  }

  lemma {:induction false} DropRightStops(s: string, drop: char -> bool)
    ensures var r := DropRight(s, drop); |r| <= |s| && r == s[..|r|] && (r != [] ==> !drop(r[|r| - 1]))
  {
    if s != [] && drop(s[|s| - 1]) {
      DropRightStops(s[..|s| - 1], drop);
    }
  }

  /** What is left after trimming is bare, and a bare string is its own trimming. */
  lemma Trimmed(s: string, drop: char -> bool)
    ensures Bare(DropBoth(s, drop), drop)
    ensures Bare(s, drop) ==> DropBoth(s, drop) == s
  {
    DropLeftStops(s, drop);
    DropRightStops(DropLeft(s, drop), drop);
  }

  /** What trimming leaves is the one slice that starts and ends bare with only dropped characters around. */
  ghost predicate TrimmedAt(s: string, i: nat, j: nat, drop: char -> bool) {
    && i <= j <= |s| && Bare(s[i..j], drop)
    && (forall k | 0 <= k < i :: drop(s[k])) && (forall k | j <= k < |s| :: drop(s[k]))
  }

  lemma {:induction false} DropLeftDrops(s: string, drop: char -> bool)
    ensures |DropLeft(s, drop)| <= |s| && forall k | 0 <= k < |s| - |DropLeft(s, drop)| :: drop(s[k])
  {
    if s != [] && drop(s[0]) {
      DropLeftDrops(s[1..], drop);
      forall k | 0 <= k < |s| - |DropLeft(s, drop)| ensures drop(s[k]) {
        assert k > 0 ==> s[k] == s[1..][k - 1];
      }
    }
  }

  lemma {:induction false} DropRightDrops(s: string, drop: char -> bool)
    ensures |DropRight(s, drop)| <= |s| && forall k | |DropRight(s, drop)| <= k < |s| :: drop(s[k])
  {
    if s != [] && drop(s[|s| - 1]) {
      DropRightDrops(s[..|s| - 1], drop);
    }
  }

  lemma TrimMeans(s: string, drop: char -> bool) returns (i: nat, j: nat)
    ensures TrimmedAt(s, i, j, drop) && DropBoth(s, drop) == s[i..j]
    ensures i == j <==> forall k | 0 <= k < |s| :: drop(s[k])
  {
    i, j := TrimSlice(s, drop);
    if i < j {
      assert s[i..j][0] == s[i];
    }
  }

  /** Trimming white space, of one string and of each of a list. */
  lemma TrimSpaceMeans(s: string) returns (i: nat, j: nat)
    ensures TrimmedAt(s, i, j, IsSpace) && Trim(s) == s[i..j]
  {
    i, j := TrimMeans(s, IsSpace);
  }

  lemma TrimsMean(ss: seq<string>, k: nat) returns (i: nat, j: nat)
    requires k < |ss|
    ensures |Trims(ss)| == |ss| && TrimmedAt(ss[k], i, j, IsSpace) && Trims(ss)[k] == ss[k][i..j]
  {
    i, j := TrimSpaceMeans(ss[k]);
  }

  lemma TrimSlice(s: string, drop: char -> bool) returns (i: nat, j: nat)
    ensures i <= j <= |s| && DropBoth(s, drop) == s[i..j] && Bare(s[i..j], drop)
    ensures forall k | 0 <= k < i || j <= k < |s| :: drop(s[k])
  {
    DropLeftDrops(s, drop);
    DropLeftStops(s, drop);
    DropRightDrops(DropLeft(s, drop), drop);
    DropRightStops(DropLeft(s, drop), drop);
    Trimmed(s, drop);
    i, j := BothEnds(s, DropLeft(s, drop), DropBoth(s, drop), drop);
  }

  lemma BothEnds(s: string, l: string, r: string, drop: char -> bool) returns (i: nat, j: nat)
    requires |l| <= |s| && l == s[|s| - |l|..] && forall k | 0 <= k < |s| - |l| :: drop(s[k])
    requires |r| <= |l| && r == l[..|r|] && forall k | |r| <= k < |l| :: drop(l[k])
    ensures i <= j <= |s| && r == s[i..j] && forall k | 0 <= k < i || j <= k < |s| :: drop(s[k])
  {
    i := |s| - |l|;
    j := i + |r|;
    SliceOfSlice(s, i, |r|);
    assert forall k | j <= k < |s| :: s[k] == l[k - i];
  }

  lemma SliceOfSlice(s: string, i: nat, n: nat)
    requires i + n <= |s|
    ensures s[i..][..n] == s[i..i + n]
  {
  }

  /** There is only one such slice. */
  lemma TrimOnce(s: string, a: nat, b: nat, i: nat, j: nat, drop: char -> bool)
    requires TrimmedAt(s, a, b, drop) && TrimmedAt(s, i, j, drop)
    ensures s[a..b] == s[i..j]
  {
    if a < b {
      assert !drop(s[a]) && !drop(s[b - 1]) by {
        assert s[a..b][0] == s[a] && s[a..b][|s[a..b]| - 1] == s[b - 1];
      }
    }
    if i < j {
      assert !drop(s[i]) && !drop(s[j - 1]) by {
        assert s[i..j][0] == s[i] && s[i..j][|s[i..j]| - 1] == s[j - 1];
      }
    }
  }

  /** Dropping shortens unless there is nothing to drop. */
  lemma DropRightSame(s: string, drop: char -> bool)
    ensures |DropRight(s, drop)| <= |s|
    ensures s == [] || !drop(s[|s| - 1]) ==> DropRight(s, drop) == s
    ensures s != [] && drop(s[|s| - 1]) ==> |DropRight(s, drop)| < |s|
  {
    DropRightStops(s, drop);
    if s != [] && drop(s[|s| - 1]) {
      DropRightStops(s[..|s| - 1], drop);
    }
  }

  lemma DropBothSame(s: string, drop: char -> bool)
    ensures |DropBoth(s, drop)| <= |s|
    ensures Bare(s, drop) ==> DropBoth(s, drop) == s
    ensures !Bare(s, drop) ==> |DropBoth(s, drop)| < |s|
  {
    DropLeftStops(s, drop);
    DropRightSame(DropLeft(s, drop), drop);
    if s != [] && drop(s[0]) {
      DropLeftStops(s[1..], drop);
    }
  }

  // ---------------------------------------------------------------------------------------
  // Searching

  predicate At(s: string, i: nat, part: string) {
    i + |part| <= |s| && s[i..i + |part|] == part
  }

  /** The first place of `part`, as `strings.Index`. */
  function Index(s: string, part: string): (r: Option<nat>)
    ensures r.Some? ==> At(s, r.value, part) && forall k: nat | k < r.value :: !At(s, k, part)
    ensures r.None? ==> forall k: nat :: !At(s, k, part)
  {
    IndexFrom(s, part, 0)
  }

  function IndexFrom(s: string, part: string, i: nat): (r: Option<nat>)
    requires i <= |s| && forall k: nat | k < i :: !At(s, k, part)
    ensures r.Some? ==> At(s, r.value, part) && forall k: nat | k < r.value :: !At(s, k, part)
    ensures r.None? ==> forall k: nat :: !At(s, k, part)
    decreases |s| - i
  {
    if At(s, i, part) then Some(i)
    else if i == |s| then
      assert forall k: nat | k > i :: !At(s, k, part);
      None
    else IndexFrom(s, part, i + 1)
  }

  /** Before and after the first `sep`, as `strings.SplitN(s, sep, 2)`. */
  function Cut(s: string, sep: string): Option<(string, string)> {
    var i := Index(s, sep);
    if i.None? then None else Some((s[..i.value], s[i.value + |sep|..]))
  }

  /** Joining two parts whose first holds no separator is undone by cutting. */
  lemma CutJoined(a: string, sep: string, b: string)
    requires sep != "" && forall k: nat | k < |a| :: !At(a + sep + b, k, sep)
    ensures Cut(a + sep + b, sep) == Some((a, b))
  {
    var s := a + sep + b;
    assert At(s, |a|, sep);
    assert s[..|a|] == a && s[|a| + |sep|..] == b;
  }

  predicate HasSuffix(s: string, suffix: string) {
    |suffix| <= |s| && s[|s| - |suffix|..] == suffix
  }

  // ---------------------------------------------------------------------------------------
  // Lines

  function Split(s: string, c: char): (parts: seq<string>)
    ensures parts != []
  {
    if s == [] then [[]]
    else
      var rest := Split(s[1..], c);
      if s[0] == c then [[]] + rest else [[s[0]] + rest[0]] + rest[1..]
  }

  function Join(parts: seq<string>, c: char): string {
    if parts == [] then [] else if |parts| == 1 then parts[0] else parts[0] + [c] + Join(parts[1..], c)
  }

  lemma {:induction false} SplitParts(s: string, c: char)
    ensures forall p | p in Split(s, c) :: c !in p
  {
    if s != [] {
      SplitParts(s[1..], c);
      var rest := Split(s[1..], c);
      assert rest[0] in rest && forall p | p in rest[1..] :: p in rest;
    }
  }

  lemma {:induction false} SplitAfter(a: string, c: char, b: string)
    requires c !in a
    ensures Split(a + [c] + b, c) == [a] + Split(b, c)
  {
    if a == [] {
      assert ([] + [c] + b)[1..] == b;
      assert a + [c] + b == [c] + b;
    } else {
      SplitAfter(a[1..], c, b);
      assert (a + [c] + b)[1..] == a[1..] + [c] + b;
      assert [a[0]] + a[1..] == a;
    }
  }

  /** Splitting distributes over a separator. */
  lemma {:induction false} SplitBoth(a: string, c: char, b: string)
    ensures Split(a + [c] + b, c) == Split(a, c) + Split(b, c)
  {
    if a == [] {
      SplitAfter(a, c, b);
    } else {
      SplitBoth(a[1..], c, b);
      var s := a + [c] + b;
      assert s[1..] == a[1..] + [c] + b && s[0] == a[0];
      PrependDistributes(a[0], Split(a[1..], c), Split(b, c));
    }
  }

  lemma PrependDistributes(x: char, a: seq<string>, b: seq<string>)
    requires a != []
    ensures [[x] + (a + b)[0]] + (a + b)[1..] == [[x] + a[0]] + a[1..] + b
    ensures [[]] + (a + b) == [[]] + a + b
  {
    assert (a + b)[1..] == a[1..] + b;
  }

  lemma {:induction false} SplitWhole(a: string, c: char)
    requires c !in a
    ensures Split(a, c) == [a]
  {
    if a != [] {
      SplitWhole(a[1..], c);
      assert [a[0]] + a[1..] == a;
    }
  }

  lemma {:induction false} SplitJoin(parts: seq<string>, c: char)
    requires parts != [] && forall p | p in parts :: c !in p
    ensures Split(Join(parts, c), c) == parts
  {
    if |parts| == 1 {
      SplitWhole(parts[0], c);
      assert parts == [parts[0]];
    } else {
      SplitJoin(parts[1..], c);
      SplitAfter(parts[0], c, Join(parts[1..], c));
      assert parts == [parts[0]] + parts[1..];
    }
  }
}
