/** How katl-console shapes one journal line: trimming, the bounded copy into a fixed slot and the
    compaction of a leading timestamp, each as a function on bytes. */
module JournalLine {

  type byte = b: int | 0 <= b < 256

  type bytes = seq<byte>

  const SLOT: nat := 1024

  /** "… [truncated]" */
  const MARKER: bytes :=
    [0xE2, 0x80, 0xA6, 0x20, 0x5B, 0x74, 0x72, 0x75, 0x6E, 0x63, 0x61, 0x74, 0x65, 0x64, 0x5D]

  const SPACE: byte := 0x20
  const DOT: byte := 0x2E
  const DASH: byte := 0x2D
  const COLON: byte := 0x3A
  const LETTER_T: byte := 0x54
  const LETTER_Z: byte := 0x5A

  // ---------------------------------------------------------------------------------------
  // Trimming

  /** The encoding of one character of Unicode's White_Space property. */
  predicate IsSpace(c: bytes) {
    || (|c| == 1 && (0x09 <= c[0] <= 0x0D || c[0] == 0x20))
    || (|c| == 2 && c[0] == 0xC2 && (c[1] == 0x85 || c[1] == 0xA0))
    || (|c| == 3 && (
          || c == [0xE1, 0x9A, 0x80] || c == [0xE2, 0x81, 0x9F] || c == [0xE3, 0x80, 0x80]
          || (c[0] == 0xE2 && c[1] == 0x80 && (0x80 <= c[2] <= 0x8A || c[2] in {0xA8, 0xA9, 0xAF}))))
  }

  /** The bytes from `i` up to `j` are one encoding of white space. */
  predicate SpaceAt(s: bytes, i: nat, j: nat) {
    i < j <= |s| && IsSpace(s[i..j])
  }

  /** Where the white space that starts at `i` ends. */
  function Start(s: bytes, i: nat): (r: nat)
    requires i <= |s|
    ensures i <= r <= |s|
    decreases |s| - i
  {
    if SpaceAt(s, i, i + 1) then Start(s, i + 1)
    else if SpaceAt(s, i, i + 2) then Start(s, i + 2)
    else if SpaceAt(s, i, i + 3) then Start(s, i + 3)
    else i
  }

  /** Where the white space that ends at `j`, and does not reach below `i`, starts. */
  function End(s: bytes, i: nat, j: nat): (r: nat)
    requires i <= j <= |s|
    ensures i <= r <= j
    decreases j
  {
    if j >= i + 1 && SpaceAt(s, j - 1, j) then End(s, i, j - 1)
    else if j >= i + 2 && SpaceAt(s, j - 2, j) then End(s, i, j - 2)
    else if j >= i + 3 && SpaceAt(s, j - 3, j) then End(s, i, j - 3)
    else j
  }

  /** `bytes.TrimSpace`. */
  function Trim(s: bytes): bytes {
    s[Start(s, 0)..End(s, Start(s, 0), |s|)]
  }

  /** The bytes from `i` up to `j` are a sequence of encodings of white space. */
  predicate Spaces(s: bytes, i: nat, j: nat)
    decreases j - i
  {
    || i == j
    || (i + 1 <= j && SpaceAt(s, i, i + 1) && Spaces(s, i + 1, j))
    || (i + 2 <= j && SpaceAt(s, i, i + 2) && Spaces(s, i + 2, j))
    || (i + 3 <= j && SpaceAt(s, i, i + 3) && Spaces(s, i + 3, j))
  }

  /** White space around the bytes from `i` up to `j`, and none at either end of them. */
  ghost predicate TrimmedAt(line: bytes, i: nat, j: nat) {
    && i <= j <= |line| && Spaces(line, 0, i) && Spaces(line, j, |line|)
    && (forall k | i < k <= j :: !SpaceAt(line, i, k)) && (forall k: nat | i <= k < j :: !SpaceAt(line, k, j))
  }

  lemma {:induction false} SpacesThen(s: bytes, i: nat, j: nat, k: nat)
    requires i <= j <= k && Spaces(s, i, j) && Spaces(s, j, k)
    ensures Spaces(s, i, k)
    decreases j - i
  {
    if i < j {
      var n := if SpaceAt(s, i, i + 1) && Spaces(s, i + 1, j) then 1
        else if i + 2 <= j && SpaceAt(s, i, i + 2) && Spaces(s, i + 2, j) then 2 else 3;
      SpacesThen(s, i + n, j, k);
    }
  }

  lemma {:induction false} StartAt(s: bytes, i: nat)
    requires i <= |s|
    ensures Spaces(s, i, Start(s, i)) && forall k :: !SpaceAt(s, Start(s, i), k)
    decreases |s| - i
  {
    if SpaceAt(s, i, i + 1) {
      StartAt(s, i + 1);
    } else if SpaceAt(s, i, i + 2) {
      StartAt(s, i + 2);
    } else if SpaceAt(s, i, i + 3) {
      StartAt(s, i + 3);
    } else {
      assert forall k | SpaceAt(s, i, k) :: k == i + 1 || k == i + 2 || k == i + 3;
    }
  }

  lemma {:induction false} EndAt(s: bytes, i: nat, j: nat)
    requires i <= j <= |s|
    ensures Spaces(s, End(s, i, j), j) && forall k: nat | i <= k :: !SpaceAt(s, k, End(s, i, j))
    decreases j
  {
    var n := if j >= i + 1 && SpaceAt(s, j - 1, j) then 1 else if j >= i + 2 && SpaceAt(s, j - 2, j) then 2
      else if j >= i + 3 && SpaceAt(s, j - 3, j) then 3 else 0;
    if n > 0 {
      EndAt(s, i, j - n);
      SpacesThen(s, End(s, i, j - n), j - n, j);
    } else {
      assert forall k: nat | i <= k && SpaceAt(s, k, j) :: k == j - 1 || k == j - 2 || k == j - 3;
    }
  }

  /** No encoding of white space starts another. */
  lemma OneSpace(s: bytes, i: nat, j: nat, k: nat)
    requires SpaceAt(s, i, j) && SpaceAt(s, i, k)
    ensures j == k
  {
    assert s[i..j][0] == s[i] && s[i..k][0] == s[i];
  }

  lemma {:induction false} SpacesGone(s: bytes, i: nat)
    requires i <= |s| && Spaces(s, i, |s|)
    ensures Start(s, i) == |s|
    decreases |s| - i
  {
    if i < |s| {
      var n := if SpaceAt(s, i, i + 1) && Spaces(s, i + 1, |s|) then 1
        else if SpaceAt(s, i, i + 2) && Spaces(s, i + 2, |s|) then 2 else 3;
      forall k: nat | SpaceAt(s, i, k) ensures k == i + n {
        OneSpace(s, i, k, i + n);
      }
      SpacesGone(s, i + n);
    }
  }

  /** Trimming leaves bytes that are free of white space at their ends, with only white space around them;
      nothing is left exactly of a line of white space. */
  lemma TrimMeans(line: bytes) returns (i: nat, j: nat)
    ensures TrimmedAt(line, i, j) && Trim(line) == line[i..j]
    ensures i == j <==> Spaces(line, 0, |line|)
  {
    i := Start(line, 0);
    j := End(line, i, |line|);
    StartAt(line, 0);
    EndAt(line, i, |line|);
    if i == j {
      SpacesThen(line, 0, i, |line|);
    }
    if Spaces(line, 0, |line|) {
      SpacesGone(line, 0);
    }
  }

  // ---------------------------------------------------------------------------------------
  // The bounded copy

  predicate Continuation(b: byte) {
    0x80 <= b < 0xC0
  }

  /** Step back from `p` over continuation bytes. */
  function Back(line: bytes, p: nat): (r: nat)
    ensures r <= p
    ensures forall i | r < i <= p && i < |line| :: Continuation(line[i])
    ensures r == 0 || r >= |line| || !Continuation(line[r])
  {
    if p > 0 && p < |line| && Continuation(line[p]) then Back(line, p - 1) else p
  }

  /** How much of an oversized line is kept in front of the marker. */
  function Kept(line: bytes): nat {
    Back(line, SLOT - |MARKER|)
  }

  /** What a slot that held `before` holds after `line` was copied in. The bytes behind the marker
      are not written. */
  function Bounded(line: bytes, before: bytes): (r: bytes)
    requires |before| == SLOT
    ensures |r| == if |line| <= SLOT then |line| else SLOT
  {
    if |line| <= SLOT then line
    else line[..Kept(line)] + MARKER + before[Kept(line) + |MARKER|..]
  }

  /** A stored line is a function of the line added exactly when the line fits the slot or no
      character straddles the cut; otherwise bytes of an older line stay visible behind the marker. */
  lemma StaleTail(line: bytes)
    ensures (forall b: bytes, c: bytes | |b| == SLOT && |c| == SLOT :: Bounded(line, b) == Bounded(line, c))
      <==> |line| <= SLOT || !Continuation(line[SLOT - |MARKER|])
  {
    if |line| > SLOT {
      var p := Kept(line);
      if Continuation(line[SLOT - |MARKER|]) {
        assert p < SLOT - |MARKER|;
        var b, c: bytes := seq(SLOT, _ => 0), seq(SLOT, _ => 1);
        assert Bounded(line, b)[SLOT - 1] == b[SLOT - 1] && Bounded(line, c)[SLOT - 1] == c[SLOT - 1];
      } else {
        assert p == SLOT - |MARKER|;
        forall b: bytes, c: bytes | |b| == SLOT && |c| == SLOT ensures Bounded(line, b) == Bounded(line, c) {
          assert b[SLOT..] == [] && c[SLOT..] == [];
        }
      }
    }
  }

  // ---------------------------------------------------------------------------------------
  // UTF-8, section 4 of RFC 3629

  predicate Tail(s: bytes, i: nat) {
    i < |s| && Continuation(s[i])
  }

  /** Length of the well-formed character at the front, 0 if there is none. */
  function CharLength(s: bytes): (n: nat)
    ensures n <= |s| && n <= 4
    ensures forall i | 1 <= i < n :: Continuation(s[i])
    ensures n > 0 ==> !Continuation(s[0])
  {
    if s == [] then 0
    else if s[0] < 0x80 then 1
    else if 0xC2 <= s[0] <= 0xDF && Tail(s, 1) then 2
    else if s[0] == 0xE0 && Tail(s, 1) && s[1] >= 0xA0 && Tail(s, 2) then 3
    else if s[0] == 0xED && Tail(s, 1) && s[1] <= 0x9F && Tail(s, 2) then 3
    else if 0xE1 <= s[0] <= 0xEF && s[0] != 0xED && Tail(s, 1) && Tail(s, 2) then 3
    else if s[0] == 0xF0 && Tail(s, 1) && s[1] >= 0x90 && Tail(s, 2) && Tail(s, 3) then 4
    else if s[0] == 0xF4 && Tail(s, 1) && s[1] <= 0x8F && Tail(s, 2) && Tail(s, 3) then 4
    else if 0xF1 <= s[0] <= 0xF3 && Tail(s, 1) && Tail(s, 2) && Tail(s, 3) then 4
    else 0
  }

  /** A sequence of characters, each as long as `len` says. */
  predicate Chars(s: bytes, len: bytes -> nat)
    decreases |s|
  {
    s == [] || (0 < len(s) <= |s| && Chars(s[len(s)..], len))
  }

  predicate ValidUtf8(s: bytes) {
    Chars(s, CharLength)
  }

  /** The first character of `t` has at most four bytes, of which exactly the later ones are
      continuation bytes, and it is the first character of every prefix that holds it. */
  ghost predicate Synchronised(t: bytes, len: bytes -> nat) {
    && len(t) <= |t| && len(t) <= 4
    && (forall k | 1 <= k < len(t) :: Continuation(t[k]))
    && (len(t) > 0 ==> !Continuation(t[0]))
    && (forall j | 0 < len(t) <= j <= |t| :: len(t[..j]) == len(t))
  }

  ghost predicate SelfSynchronising(len: bytes -> nat) {
    forall t :: Synchronised(t, len)
  }

  lemma Utf8SelfSynchronising()
    ensures SelfSynchronising(CharLength)
  {
    forall t: bytes ensures Synchronised(t, CharLength) {
      forall j | 0 < CharLength(t) <= j <= |t| ensures CharLength(t[..j]) == CharLength(t) {
        CharLengthPrefix(t, j);
      }
    }
  }

  /** A byte that is no continuation starts a character. */
  lemma {:induction false} CutChars(s: bytes, i: nat, len: bytes -> nat)
    requires SelfSynchronising(len) && Chars(s, len) && i <= |s| && (i < |s| ==> !Continuation(s[i]))
    ensures Chars(s[..i], len) && Chars(s[i..], len)
    decreases |s|
  {
    if i == 0 {
      assert s[0..] == s;
    } else {
      var n := len(s);
      assert Synchronised(s, len);
      CutChars(s[n..], i - n, len);
      assert s[i..] == s[n..][i - n..];
      assert s[..i][n..] == s[n..][..i - n];
    }
  }

  lemma CutAtCharacter(s: bytes, i: nat)
    requires ValidUtf8(s) && i <= |s| && (i < |s| ==> !Continuation(s[i]))
    ensures ValidUtf8(s[..i]) && ValidUtf8(s[i..])
  {
    Utf8SelfSynchronising();
    CutChars(s, i, CharLength);
  }

  lemma CharLengthPrefix(s: bytes, i: nat)
    requires CharLength(s) > 0 && CharLength(s) <= i <= |s|
    ensures CharLength(s[..i]) == CharLength(s)
  {
  }

  /** No character is longer than four bytes. */
  lemma {:induction false} CharacterNearby(s: bytes, i: nat, len: bytes -> nat) returns (j: nat)
    requires SelfSynchronising(len) && Chars(s, len) && i < |s|
    ensures j <= i <= j + 3 && !Continuation(s[j])
    decreases |s|
  {
    var n := len(s);
    assert Synchronised(s, len);
    if i < n {
      j := 0;
    } else {
      var k := CharacterNearby(s[n..], i - n, len);
      j := k + n;
    }
  }

  /** For valid text longer than a slot the kept prefix ends between two characters, at most three
      bytes early, and the marker follows it. */
  lemma TruncationKeepsCharacters(line: bytes, before: bytes)
    requires ValidUtf8(line) && |line| > SLOT && |before| == SLOT
    ensures SLOT - |MARKER| - 3 <= Kept(line) <= SLOT - |MARKER|
    ensures ValidUtf8(line[..Kept(line)]) && ValidUtf8(line[Kept(line)..])
    ensures Bounded(line, before)[..Kept(line) + |MARKER|] == line[..Kept(line)] + MARKER
  {
    Utf8SelfSynchronising();
    var j := CharacterNearby(line, SLOT - |MARKER|, CharLength);
    assert Kept(line) >= j;
    CutAtCharacter(line, Kept(line));
  }

  /** A valid text longer than a slot in which a two-byte character straddles the cut. */
  const STRADDLING: bytes := seq(1008, _ => 0x61) + [0xC3, 0xA9] + seq(20, _ => 0x61)

  lemma StraddlingFacts()
    ensures |STRADDLING| == 1030 && ValidUtf8(STRADDLING) && 0x62 !in STRADDLING && Trim(STRADDLING) == STRADDLING
    ensures Kept(STRADDLING) == 1008 && 0x62 !in MARKER
  {
    StraddlingValid();
    StraddlingLetters();
    NothingToTrim(STRADDLING);
    CutBefore(STRADDLING);
  }

  lemma StraddlingLetters()
    ensures |STRADDLING| == 1030 && 0x62 !in STRADDLING && 0x62 !in MARKER
    ensures STRADDLING[0] == STRADDLING[1029] == 0x61 && STRADDLING[1008] == 0xC3 && STRADDLING[1009] == 0xA9
  {
  }

  lemma StraddlingValid()
    ensures ValidUtf8(STRADDLING)
  {
    var front, back: bytes := seq(1008, _ => 0x61), seq(20, _ => 0x61);
    var tail := [0xC3, 0xA9] + back;
    AsciiValid(back, []);
    assert tail[2..] == back + [];
    assert CharLength(tail) == 2;
    AsciiValid(front, tail);
    assert STRADDLING == front + tail;
  }

  /** One step back from a continuation byte to the byte that starts the character. */
  lemma CutBefore(line: bytes)
    requires |line| > 1009 && Continuation(line[1009]) && !Continuation(line[1008])
    ensures Kept(line) == 1008
  {
    assert SLOT - |MARKER| == 1009;
    assert Back(line, 1009) == Back(line, 1008) == 1008;
  }

  /** Letters in front of valid text leave it valid. */
  lemma {:induction false} AsciiValid(a: bytes, s: bytes)
    requires ValidUtf8(s) && forall i | 0 <= i < |a| :: a[i] < 0x80
    ensures ValidUtf8(a + s)
  {
    if a == [] {
      assert a + s == s;
    } else {
      AsciiValid(a[1..], s);
      assert (a + s)[1..] == a[1..] + s;
    }
  }

  lemma NothingToTrim(s: bytes)
    requires |s| >= 3 && 0x61 <= s[0] <= 0x7A
    requires 0x61 <= s[|s| - 1] <= 0x7A
    ensures Trim(s) == s
  {
    assert s[..1][0] == s[0] && s[..2][0] == s[0] && s[..3][0] == s[0];
    var n := |s|;
    assert s[n - 1..][0] == s[n - 1] && s[n - 2..][1] == s[n - 1] && s[n - 3..][2] == s[n - 1];
  }

  // ---------------------------------------------------------------------------------------
  // Timestamps

  predicate Digit(b: byte) {
    0x30 <= b <= 0x39
  }

  predicate Digits(s: bytes) {
    forall i | 0 <= i < |s| :: Digit(s[i])
  }

  /** The parts of a line that starts with a timestamp. */
  datatype Stamped = Stamped(date: bytes, time: bytes, fraction: bytes, zone: bytes, rest: bytes)

  predicate IsDate(s: bytes) {
    |s| == 10 && Digits(s[..4]) && s[4] == DASH && Digits(s[5..7]) && s[7] == DASH && Digits(s[8..10])
  }

  predicate IsTime(s: bytes) {
    |s| == 8 && Digits(s[..2]) && s[2] == COLON && Digits(s[3..5]) && s[5] == COLON && Digits(s[6..8])
  }

  predicate IsFraction(s: bytes) {
    s == [] || (|s| >= 2 && s[0] == DOT && Digits(s[1..]))
  }

  predicate IsZone(s: bytes) {
    || s == [] || s == [LETTER_Z]
    || (|s| == 5 && (s[0] == 0x2B || s[0] == DASH) && Digits(s[1..]))
    || (|s| == 6 && (s[0] == 0x2B || s[0] == DASH) && Digits(s[1..3]) && s[3] == COLON && Digits(s[4..]))
  }

  /** `line` reads as date, `T`, time, fraction, zone and then a space. */
  predicate Reads(line: bytes, p: Stamped) {
    && line == p.date + [LETTER_T] + p.time + p.fraction + p.zone + p.rest
    && IsDate(p.date) && IsTime(p.time) && IsFraction(p.fraction) && IsZone(p.zone)
    && p.rest != [] && p.rest[0] == SPACE
  }

  /** Date, space, time, at most three fraction digits, no zone, the rest intact. */
  function Rewritten(p: Stamped): bytes {
    p.date + [SPACE] + p.time + (if |p.fraction| > 4 then p.fraction[..4] else p.fraction) + p.rest
  }

  // The scanner, position by position.

  predicate DateTimePrefix(line: bytes) {
    && |line| >= 19
    && Digit(line[0]) && Digit(line[1]) && Digit(line[2]) && Digit(line[3])
    && Digit(line[5]) && Digit(line[6]) && Digit(line[8]) && Digit(line[9])
    && Digit(line[11]) && Digit(line[12]) && Digit(line[14]) && Digit(line[15]) && Digit(line[17]) && Digit(line[18])
    && line[4] == DASH && line[7] == DASH && line[10] == LETTER_T && line[13] == COLON && line[16] == COLON
  }

  function DigitsEnd(line: bytes, i: nat): (r: nat)
    requires i <= |line|
    ensures i <= r <= |line|
    ensures forall k | i <= k < r :: Digit(line[k])
    ensures r < |line| ==> !Digit(line[r])
    decreases |line| - i
  {
    if i < |line| && Digit(line[i]) then DigitsEnd(line, i + 1) else i
  }

  predicate ZoneAt(line: bytes, i: nat) {
    && i < |line| && (line[i] == 0x2B || line[i] == DASH)
    && if i + 5 < |line| && line[i + 3] == COLON
       then Digit(line[i + 1]) && Digit(line[i + 2]) && Digit(line[i + 4]) && Digit(line[i + 5])
       else i + 4 < |line| && Digit(line[i + 1]) && Digit(line[i + 2]) && Digit(line[i + 3]) && Digit(line[i + 4])
  }

  /** Where the fraction ends; 20 stands for a dot without digits. */
  function FractionEnd(line: bytes): (r: nat)
    requires |line| >= 19
    ensures 19 <= r <= |line|
  {
    if |line| > 19 && line[19] == DOT then DigitsEnd(line, 20) else 19
  }

  function ZoneEnd(line: bytes, i: nat): (r: nat)
    ensures i <= r
  {
    if i < |line| && line[i] == LETTER_Z then i + 1
    else if ZoneAt(line, i) then (if i + 3 < |line| && line[i + 3] == COLON then i + 6 else i + 5)
    else i
  }

  /** A timestamp the scanner accepts. */
  predicate Accepts(line: bytes) {
    && DateTimePrefix(line)
    && !(|line| > 19 && line[19] == DOT && FractionEnd(line) == 20)
    && var end := ZoneEnd(line, FractionEnd(line)); end < |line| && line[end] == SPACE
  }

  /** Where the kept fraction ends. */
  function KeepEnd(line: bytes): (r: nat)
    requires |line| >= 19
    ensures 19 <= r <= FractionEnd(line)
  {
    if FractionEnd(line) > 23 then 23 else FractionEnd(line)
  }

  function Compact(line: bytes): (r: bytes) {
    if Accepts(line)
    then line[..10] + [SPACE] + line[11..KeepEnd(line)] + line[ZoneEnd(line, FractionEnd(line))..]
    else line
  }

  lemma SlicesOfParts(line: bytes, p: Stamped)
    requires Reads(line, p)
    ensures var i := 19 + |p.fraction|;
      var j := i + |p.zone|;
      && j < |line| && line[..10] == p.date && line[11..19] == p.time && line[19..i] == p.fraction
      && line[i..j] == p.zone && line[j..] == p.rest && line[j] == SPACE
      && !Digit(line[i]) && line[i] != DOT
  {
    var i, j := 19 + |p.fraction|, 19 + |p.fraction| + |p.zone|;
    assert line[..10] == p.date;
    assert line[11..19] == p.time;
    assert line[19..i] == p.fraction;
    assert line[i..j] == p.zone;
    assert line[j..] == p.rest;
    assert line[j] == p.rest[0] == SPACE;
    if p.zone == [] {
      assert i == j;
    } else {
      assert line[i] == p.zone[0];
      ZoneStart(p.zone);
    }
  }

  lemma ZoneStart(z: bytes)
    requires IsZone(z) && z != []
    ensures !Digit(z[0]) && z[0] != DOT
  {
  }

  /** The scanner finds the parts of every stamped line. */
  lemma ScannerFinds(line: bytes, p: Stamped)
    requires Reads(line, p)
    ensures Accepts(line) && p == Parts(line) && Compact(line) == Rewritten(p)
  {
    SlicesOfParts(line, p);
    PrefixOfParts(line, p);
    FractionOfParts(line, p);
    ZoneOfParts(line, p, 19 + |p.fraction|);
    CompactOfParts(line, p);
  }

  lemma CompactOfParts(line: bytes, p: Stamped)
    requires Accepts(line) && p == Parts(line)
    ensures Compact(line) == Rewritten(p)
  {
    KeptSlices(line, FractionEnd(line), KeepEnd(line));
  }

  /** Cutting the fraction at position 23 keeps three of its digits. */
  lemma KeptSlices(line: bytes, i: nat, k: nat)
    requires 19 <= k <= i <= |line| && k == (if i > 23 then 23 else i)
    ensures var fraction := line[19..i];
      line[11..k] == line[11..19] + (if |fraction| > 4 then fraction[..4] else fraction)
  {
    assert line[11..k] == line[11..19] + line[19..k];
    assert line[19..i][..k - 19] == line[19..k];
  }

  /** The parts of an accepted line. */
  function Parts(line: bytes): Stamped
    requires Accepts(line)
  {
    var i := FractionEnd(line);
    var j := ZoneEnd(line, i);
    Stamped(line[..10], line[11..19], line[19..i], line[i..j], line[j..])
  }

  lemma PrefixOfParts(line: bytes, p: Stamped)
    requires Reads(line, p)
    ensures DateTimePrefix(line)
  {
    assert line[..10] == p.date && line[10] == LETTER_T && line[11..19] == p.time;
    assert forall i | 0 <= i < 10 :: line[i] == p.date[i];
    assert forall i | 0 <= i < 8 :: line[11 + i] == p.time[i];
    var d, t := p.date, p.time;
    assert d[0] == d[..4][0] && d[1] == d[..4][1] && d[2] == d[..4][2] && d[3] == d[..4][3];
    assert d[5] == d[5..7][0] && d[6] == d[5..7][1] && d[8] == d[8..10][0] && d[9] == d[8..10][1];
    assert t[0] == t[..2][0] && t[1] == t[..2][1] && t[3] == t[3..5][0] && t[4] == t[3..5][1];
    assert t[6] == t[6..8][0] && t[7] == t[6..8][1];
  }

  lemma FractionOfParts(line: bytes, p: Stamped)
    requires Reads(line, p)
    requires !Digit(line[19 + |p.fraction|]) && line[19 + |p.fraction|] != DOT
    ensures FractionEnd(line) == 19 + |p.fraction|
  {
    var i := 19 + |p.fraction|;
    assert line[19..i] == p.fraction;
    assert forall k | 19 <= k < i :: line[k] == p.fraction[k - 19];
    if p.fraction != [] {
      assert forall k | 20 <= k < i :: line[k] == p.fraction[1..][k - 20];
    }
  }

  lemma ZoneOfParts(line: bytes, p: Stamped, i: nat)
    requires Reads(line, p) && i == 19 + |p.fraction|
    ensures ZoneEnd(line, i) == i + |p.zone|
  {
    SlicesOfParts(line, p);
    var z := p.zone;
    assert forall k | 0 <= k < |z| :: line[i + k] == z[k];
    if |z| == 5 {
      assert z[1] == z[1..][0] && z[2] == z[1..][1] && z[3] == z[1..][2] && z[4] == z[1..][3];
      ShortZone(line, i);
    } else if |z| == 6 {
      assert z[1] == z[1..3][0] && z[2] == z[1..3][1] && z[4] == z[4..][0] && z[5] == z[4..][1];
      LongZone(line, i);
    }
  }

  lemma ShortZone(line: bytes, i: nat)
    requires i + 5 < |line| && (line[i] == 0x2B || line[i] == DASH)
    requires Digit(line[i + 1]) && Digit(line[i + 2]) && Digit(line[i + 3]) && Digit(line[i + 4])
    ensures ZoneEnd(line, i) == i + 5
  {
  }

  lemma LongZone(line: bytes, i: nat)
    requires i + 6 < |line| && (line[i] == 0x2B || line[i] == DASH) && line[i + 3] == COLON
    requires Digit(line[i + 1]) && Digit(line[i + 2]) && Digit(line[i + 4]) && Digit(line[i + 5])
    ensures ZoneEnd(line, i) == i + 6
  {
  }

  lemma AcceptedReads(line: bytes)
    requires Accepts(line)
    ensures Reads(line, Parts(line))
  {
    var i := FractionEnd(line);
    var j := ZoneEnd(line, i);
    assert line == line[..10] + [line[10]] + line[11..19] + line[19..i] + line[i..j] + line[j..];
    DateAndTimeRead(line);
    ZoneReads(line, i);
  }

  lemma DateAndTimeRead(line: bytes)
    requires DateTimePrefix(line)
    ensures IsDate(line[..10]) && IsTime(line[11..19])
  {
  }

  lemma ZoneReads(line: bytes, i: nat)
    requires ZoneEnd(line, i) < |line|
    ensures IsZone(line[i..ZoneEnd(line, i)])
  {
  }

  /** Compaction is exactly the rewriting of a stamped line, of which there is one reading, and
      leaves every other line alone. */
  lemma CompactMeaning(line: bytes)
    ensures (exists p :: Reads(line, p)) <==> Accepts(line)
    ensures forall p | Reads(line, p) :: p == Parts(line) && Compact(line) == Rewritten(p)
    ensures !Accepts(line) ==> Compact(line) == line
  {
    forall p | Reads(line, p) ensures Accepts(line) && p == Parts(line) && Compact(line) == Rewritten(p) {
      ScannerFinds(line, p);
    }
    if Accepts(line) {
      AcceptedReads(line);
    }
  }

  /** Compaction never lengthens a line and does nothing the second time. */
  lemma CompactOnce(line: bytes)
    ensures |Compact(line)| <= |line|
    ensures Compact(Compact(line)) == Compact(line)
  {
    if Accepts(line) {
      assert Compact(line)[10] == SPACE;
    }
  }
}
