/** The journal buffer of katl-console: one byte array carved into fixed slots and reused as a ring.
    The mutex serialises calls, so each method is one atomic step. */
module JournalRing {
  import opened JournalLine

  /** A Go slice of the shared array. */
  datatype Slice = Slice(offset: nat, len: nat, cap: nat)

  /** Where slot `i` starts. */
  function Offset(i: nat): nat {
    i * 1024
  }

  /** Indices wrap once; the code writes this as `% len(r.lines)`. */
  function Wrap(i: nat, n: nat): (r: nat)
    requires i < 2 * n
    ensures r < n
  {
    if i < n then i else i - n
  }

  lemma WrapIsRemainder(i: nat, n: nat)
    requires i < 2 * n
    ensures Wrap(i, n) == i % n
  {
    if i >= n {
      assert i == n * 1 + (i - n);
    }
  }

  /** The last `limit` elements. */
  ghost function Newest<T>(s: seq<T>, limit: nat): seq<T> {
    if |s| <= limit then s else s[|s| - limit..]
  }

  /** Copy `src` over `a[at..]`. */
  method Overwrite(a: array<byte>, at: nat, src: bytes)
    requires at + |src| <= a.Length
    modifies a
    ensures forall i | 0 <= i < |src| :: a[at + i] == src[i]
    ensures forall i | 0 <= i < a.Length && !(at <= i < at + |src|) :: a[i] == old(a[i])
  {
    for i := 0 to |src|
      invariant forall k | 0 <= k < i :: a[at + k] == src[k]
      invariant forall k | 0 <= k < a.Length && !(at <= k < at + i) :: a[k] == old(a[k])
    {
      a[at + i] := src[i];
    }
  }

  /** How much of an oversized line fits in front of the marker. */
  method KeptPrefix(line: bytes) returns (prefix: nat)
    ensures prefix == Kept(line)
  {
    prefix := SLOT - |MARKER|;
    while prefix > 0 && prefix < |line| && Continuation(line[prefix])
      invariant 0 <= prefix <= SLOT - |MARKER|
      invariant Back(line, prefix) == Kept(line)
    {
      prefix := prefix - 1;
    }
  }

  /** Write `head`, then `marker`, leaving the rest of the slot alone. */
  method OverwriteBoth(a: array<byte>, at: nat, head: bytes, marker: bytes)
    requires at + |head| + |marker| <= a.Length
    modifies a
    ensures forall i | 0 <= i < |head| :: a[at + i] == head[i]
    ensures forall i | 0 <= i < |marker| :: a[at + |head| + i] == marker[i]
    ensures forall i | 0 <= i < a.Length && !(at <= i < at + |head| + |marker|) :: a[i] == old(a[i])
  {
    Overwrite(a, at, head);
    Overwrite(a, at + |head|, marker);
  }

  /** Fill the slot at `at`, whose slice was cut to the length the line needs. */
  method CopyBounded(a: array<byte>, at: nat, line: bytes)
    requires at + SLOT <= a.Length
    modifies a
    ensures |line| <= SLOT ==> a[at..at + |line|] == line
    ensures |line| > SLOT ==> a[at..at + SLOT] == Bounded(line, old(a[at..at + SLOT]))
    ensures forall i | 0 <= i < a.Length && !(at <= i < at + SLOT) :: a[i] == old(a[i])
  {
    if |line| <= SLOT {
      Overwrite(a, at, line);
      assert a[at..at + |line|] == line;
      return;
    }
    ghost var before := a[at..at + SLOT];
    var prefix := KeptPrefix(line);
    OverwriteBoth(a, at, line[..prefix], MARKER);
    BoundedPointwise(line, before, a[at..at + SLOT]);
  }

  lemma BoundedPointwise(line: bytes, before: bytes, now: bytes)
    requires |before| == |now| == SLOT < |line|
    requires var p := Kept(line);
      && (forall i | 0 <= i < p :: now[i] == line[i])
      && (forall i | 0 <= i < |MARKER| :: now[p + i] == MARKER[i])
      && (forall i | p + |MARKER| <= i < SLOT :: now[i] == before[i])
    ensures now == Bounded(line, before)
  {
    var p := Kept(line);
    assert now == now[..p] + now[p..p + |MARKER|] + now[p + |MARKER|..];
    assert now[..p] == line[..p] && now[p..p + |MARKER|] == MARKER;
    assert now[p + |MARKER|..] == before[p + |MARKER|..];
  }

  /** Move bytes down, possibly onto themselves. */
  method MoveDown(a: array<byte>, from: nat, to: nat, n: nat)
    requires to <= from && from + n <= a.Length
    modifies a
    ensures forall i | to <= i < to + n :: a[i] == old(a[i + (from - to)])
    ensures forall i | 0 <= i < a.Length && !(to <= i < to + n) :: a[i] == old(a[i])
  {
    for k := 0 to n
      invariant forall i | to <= i < to + k :: a[i] == old(a[i + (from - to)])
      invariant forall i | 0 <= i < a.Length && !(to <= i < to + k) :: a[i] == old(a[i])
    {
      a[to + k] := a[from + k];
    }
  }

  /** Find the timestamp: what to keep of it and where it ends. */
  method ScanTimestamp(a: array<byte>, at: nat, len: nat) returns (accepted: bool, keepEnd: nat, timestampEnd: nat)
    requires at + len <= a.Length
    ensures accepted == Accepts(a[at..at + len])
    ensures accepted ==>
      && keepEnd == KeepEnd(a[at..at + len])
      && timestampEnd == ZoneEnd(a[at..at + len], FractionEnd(a[at..at + len])) < len
  {
    ghost var line := a[at..at + len];
    accepted, keepEnd, timestampEnd := false, 19, 19;
    var prefix := DateTimePrefixAt(a, at, len);
    if !prefix {
      return;
    }
    var position := 19;
    var fractionEnd := position;
    if position < len && a[at + position] == DOT {
      fractionEnd := fractionEnd + 1;
      while fractionEnd < len && Digit(a[at + fractionEnd])
        invariant 20 <= fractionEnd <= len
        invariant DigitsEnd(line, fractionEnd) == DigitsEnd(line, 20)
      {
        fractionEnd := fractionEnd + 1;
      }
      if fractionEnd == position + 1 {
        return;
      }
      position := fractionEnd;
    }
    timestampEnd := ZoneEndAt(a, at, len, position);
    if timestampEnd >= len || a[at + timestampEnd] != SPACE {
      return;
    }
    accepted := true;
    if fractionEnd > keepEnd {
      var fractionDigits := fractionEnd - keepEnd - 1;
      if fractionDigits > 3 {
        fractionDigits := 3;
      }
      keepEnd := keepEnd + 1 + fractionDigits;
    }
  }

  /** `line` with a space at 10 and the bytes from `k` up to `e` cut out. */
  ghost function Cut(line: bytes, k: nat, e: nat): (r: bytes)
    requires 10 < k <= e <= |line|
    ensures |r| == k + |line| - e
  {
    line[..10] + [SPACE] + line[11..k] + line[e..]
  }

  lemma CutInPlace(before: bytes, after: bytes, at: nat, len: nat, k: nat, e: nat)
    requires |after| == |before| && at + len <= |before| && 10 < k <= e <= len
    requires after[at + 10] == SPACE
    requires forall i | at <= i < at + k && i != at + 10 :: after[i] == before[i]
    requires forall i | at + k <= i < at + k + (len - e) :: after[i] == before[i + (e - k)]
    ensures after[at..at + k + (len - e)] == Cut(before[at..at + len], k, e)
  {
    var line, now := before[at..at + len], after[at..at + k + (len - e)];
    forall i | 0 <= i < k && i != 10 ensures now[i] == line[i] {
      assert after[at + i] == before[at + i];
    }
    assert now[..10] == line[..10] && now[11..k] == line[11..k];
    assert now[k..] == line[e..];
    assert now == now[..10] + [now[10]] + now[11..k] + now[k..];
  }

  method SpliceOut(a: array<byte>, at: nat, len: nat, k: nat, e: nat) returns (n: nat)
    requires at + len <= a.Length && 10 < k <= e <= len
    modifies a
    ensures n == k + len - e
    ensures a[at..at + n] == Cut(old(a[at..at + len]), k, e)
    ensures forall i | 0 <= i < a.Length && !(at <= i < at + n) :: a[i] == old(a[i])
  {
    ghost var before := a[..];
    a[at + 10] := SPACE;
    MoveDown(a, at + e, at + k, len - e);
    n := k + (len - e);
    CutInPlace(before, a[..], at, len, k, e);
    assert a[..][at..at + n] == a[at..at + n] && before[at..at + len] == old(a[at..at + len]);
  }

  /** Compact the timestamp of `a[at..at + len]` in place and give the new length. */
  method CompactInPlace(a: array<byte>, at: nat, len: nat) returns (n: nat)
    requires at + len <= a.Length
    modifies a
    ensures n <= len && a[at..at + n] == Compact(old(a[at..at + len]))
    ensures forall i | 0 <= i < a.Length && !(at <= i < at + n) :: a[i] == old(a[i])
  {
    var accepted, keepEnd, timestampEnd := ScanTimestamp(a, at, len);
    if !accepted {
      return len;
    }
    n := SpliceOut(a, at, len, keepEnd, timestampEnd);
  }

  method DateTimePrefixAt(a: array<byte>, at: nat, len: nat) returns (ok: bool)
    requires at + len <= a.Length
    ensures ok == DateTimePrefix(a[at..at + len])
  {
    ghost var line := a[at..at + len];
    if len < 19 {
      return false;
    }
    var positions := [0, 1, 2, 3, 5, 6, 8, 9, 11, 12, 14, 15, 17, 18];
    for i := 0 to |positions|
      invariant forall k | 0 <= k < i :: Digit(line[positions[k]])
    {
      if !Digit(a[at + positions[i]]) {
        assert line[positions[i]] == a[at + positions[i]];
        return false;
      }
    }
    assert Digit(line[positions[0]]) && Digit(line[positions[1]]) && Digit(line[positions[2]]);
    assert Digit(line[positions[3]]) && Digit(line[positions[4]]) && Digit(line[positions[5]]);
    assert Digit(line[positions[6]]) && Digit(line[positions[7]]) && Digit(line[positions[8]]);
    assert Digit(line[positions[9]]) && Digit(line[positions[10]]) && Digit(line[positions[11]]);
    assert Digit(line[positions[12]]) && Digit(line[positions[13]]);
    return a[at + 4] == DASH && a[at + 7] == DASH && a[at + 10] == LETTER_T
      && a[at + 13] == COLON && a[at + 16] == COLON;
  }

  method ZoneEndAt(a: array<byte>, at: nat, len: nat, position: nat) returns (end: nat)
    requires at + len <= a.Length && position <= len
    ensures end == ZoneEnd(a[at..at + len], position)
  {
    ghost var line := a[at..at + len];
    assert forall k | 0 <= k < len :: line[k] == a[at + k];
    end := position;
    if position < len && a[at + position] == LETTER_Z {
      end := end + 1;
    } else {
      var valid := position < len && (a[at + position] == 0x2B || a[at + position] == DASH);
      if valid {
        if position + 5 < len && a[at + position + 3] == COLON {
          valid := Digit(a[at + position + 1]) && Digit(a[at + position + 2])
            && Digit(a[at + position + 4]) && Digit(a[at + position + 5]);
        } else {
          valid := position + 4 < len && Digit(a[at + position + 1]) && Digit(a[at + position + 2])
            && Digit(a[at + position + 3]) && Digit(a[at + position + 4]);
        }
      }
      if valid {
        if position + 3 < len && a[at + position + 3] == COLON {
          end := end + 6;
        } else {
          end := end + 5;
        }
      }
    }
  }

  // ---------------------------------------------------------------------------------------
  // The ring

  /** Slot `i` is the window `[Offset(i), Offset(i) + SLOT)` of the array, whatever its line's length. */
  ghost predicate Windows(size: nat, lines: seq<Slice>) {
    && size == Offset(|lines|)
    && forall i | 0 <= i < |lines| :: lines[i].offset == Offset(i) && lines[i].cap == SLOT && lines[i].len <= SLOT
  }

  ghost predicate Shaped(size: nat, lines: seq<Slice>, start: nat, count: nat) {
    && lines != [] && Windows(size, lines)
    && start < |lines| && count <= |lines| && (count < |lines| ==> start == 0)
  }

  ghost function LineAt(data: bytes, lines: seq<Slice>, i: nat): bytes
    requires Windows(|data|, lines) && i < |lines|
  {
    data[Offset(i)..Offset(i) + lines[i].len]
  }

  /** The stored lines, oldest first. */
  ghost function View(data: bytes, lines: seq<Slice>, start: nat, count: nat): (v: seq<bytes>)
    requires Shaped(|data|, lines, start, count)
    ensures |v| == count
  {
    seq(count, k requires 0 <= k < count => LineAt(data, lines, Wrap(start + k, |lines|)))
  }

  /** The slot the next line goes to: the first unused one, or the oldest. */
  function NextIndex(n: nat, start: nat, count: nat): nat
    requires start < n && count <= n
  {
    if count == n then start else Wrap(start + count, n)
  }

  /** Only the bytes of window `index` differ. */
  ghost predicate OnlyWindow(data: bytes, later: bytes, index: nat) {
    && |later| == |data|
    && forall i | 0 <= i < |data| && !(Offset(index) <= i < Offset(index) + SLOT) :: later[i] == data[i]
  }

  lemma OtherLines(data: bytes, later: bytes, lines: seq<Slice>, slice: Slice, index: nat, i: nat)
    requires Windows(|data|, lines) && index < |lines| && i < |lines| && i != index
    requires Windows(|data|, lines[index := slice]) && OnlyWindow(data, later, index)
    ensures LineAt(later, lines[index := slice], i) == LineAt(data, lines, i)
  {
    assert Offset(i) + SLOT <= Offset(index) || Offset(index) + SLOT <= Offset(i);
  }

  ghost function Pushed(v: seq<bytes>, x: bytes, limit: nat): seq<bytes>
    requires limit > 0
  {
    (if |v| == limit then v[1..] else v) + [x]
  }

  function NextStart(n: nat, start: nat, count: nat): nat
    requires start < n
  {
    if count == n then Wrap(start + 1, n) else start
  }

  function NextCount(n: nat, count: nat): nat {
    if count == n then count else count + 1
  }

  /** Filling one slot appends one line and forgets the oldest when the ring is full. */
  lemma ViewPush(data: bytes, later: bytes, lines: seq<Slice>, slice: Slice, start: nat, count: nat)
    requires Shaped(|data|, lines, start, count)
    requires Windows(|data|, lines[NextIndex(|lines|, start, count) := slice])
    requires OnlyWindow(data, later, NextIndex(|lines|, start, count))
    ensures var index := NextIndex(|lines|, start, count);
      var lines' := lines[index := slice];
      && Shaped(|later|, lines', NextStart(|lines|, start, count), NextCount(|lines|, count))
      && View(later, lines', NextStart(|lines|, start, count), NextCount(|lines|, count))
         == Pushed(View(data, lines, start, count), LineAt(later, lines', index), |lines|)
  {
    var n, index, full := |lines|, NextIndex(|lines|, start, count), count == |lines|;
    var start', count' := NextStart(n, start, count), NextCount(n, count);
    var was, now := View(data, lines, start, count), View(later, lines[index := slice], start', count');
    var kept := if full then was[1..] else was;
    forall k | 0 <= k < |kept| ensures now[k] == kept[k] {
      PushedIndex(n, start, count, k);
      OtherLines(data, later, lines, slice, index, Wrap(start' + k, n));
    }
    assert Wrap(start' + (count' - 1), n) == index;
    assert now == kept + [LineAt(later, lines[index := slice], index)];
  }

  lemma PushedIndex(n: nat, start: nat, count: nat, k: nat)
    requires start < n && count <= n && (count < n ==> start == 0) && k < NextCount(n, count) - 1
    ensures Wrap(NextStart(n, start, count) + k, n) != NextIndex(n, start, count)
    ensures Wrap(NextStart(n, start, count) + k, n) == Wrap(start + (if count == n then k + 1 else k), n)
  {
  }

  lemma NewestPush<T>(s: seq<T>, x: T, limit: nat)
    requires limit > 0
    ensures Newest(s + [x], limit) == (if |s| >= limit then Newest(s, limit)[1..] else Newest(s, limit)) + [x]
  {
  }

  ghost function Resliced(lines: seq<Slice>, index: nat, n: nat): seq<Slice>
    requires index < |lines|
  {
    lines[index := Slice(Offset(index), n, SLOT)]
  }

  /** Pushing keeps "the newest lines of the history". */
  lemma HistoryPush(
      data: bytes, later: bytes, lines: seq<Slice>, n: nat, start: nat, count: nat, history: seq<bytes>, x: bytes)
    requires Shaped(|data|, lines, start, count) && View(data, lines, start, count) == Newest(history, |lines|)
    requires n <= SLOT && OnlyWindow(data, later, NextIndex(|lines|, start, count))
    requires var at := Offset(NextIndex(|lines|, start, count)); at + SLOT <= |later| && x == later[at..at + n]
    ensures var lines' := Resliced(lines, NextIndex(|lines|, start, count), n);
      && Shaped(|later|, lines', NextStart(|lines|, start, count), NextCount(|lines|, count))
      && View(later, lines', NextStart(|lines|, start, count), NextCount(|lines|, count))
         == Newest(history + [x], |lines|)
  {
    var index := NextIndex(|lines|, start, count);
    ViewPush(data, later, lines, Slice(Offset(index), n, SLOT), start, count);
    NewestPush(history, x, |lines|);
  }

  /** What a slot shows once `line` was stored over `slot`. */
  function Shown(line: bytes, slot: bytes, compact: bool): (r: bytes)
    requires |slot| == SLOT
  {
    if compact then Compact(Bounded(line, slot)) else Bounded(line, slot)
  }

  /** Copy the line into its window and, when asked, compact it there. */
  method Fill(a: array<byte>, at: nat, line: bytes, compact: bool) returns (n: nat)
    requires at + SLOT <= a.Length
    modifies a
    ensures n <= SLOT && a[at..at + n] == Shown(line, old(a[at..at + SLOT]), compact)
    ensures forall i | 0 <= i < a.Length && !(at <= i < at + SLOT) :: a[i] == old(a[i])
  {
    ghost var slot := a[at..at + SLOT];
    var length := if |line| <= SLOT then |line| else SLOT;
    CopyBounded(a, at, line);
    assert a[at..at + length] == Bounded(line, slot);
    if !compact {
      return length;
    }
    n := CompactInPlace(a, at, length);
  }

  class Ring {
    var storage: array<byte>
    var lines: seq<Slice>
    var start: nat
    var count: nat
    ghost var history: seq<bytes>  // every line ever stored, as stored

    ghost predicate Valid()
      reads this, storage
    {
      && Shaped(storage.Length, lines, start, count)
      && Contents() == Newest(history, |lines|)
    }

    ghost function Contents(): seq<bytes>
      requires Shaped(storage.Length, lines, start, count)
      reads this, storage
    {
      View(storage[..], lines, start, count)
    }

    /** The raw bytes of the slot the next line goes to. */
    ghost function NextSlot(): (b: bytes)
      requires Shaped(storage.Length, lines, start, count)
      reads this, storage
      ensures |b| == SLOT
    {
      var at := Offset(NextIndex(|lines|, start, count));
      storage[at..at + SLOT]
    }

    constructor (limit: nat)
      requires limit >= 1
      ensures Valid() && fresh(storage) && |lines| == limit && history == []
    {
      storage := new byte[Offset(limit)](_ => 0);
      lines := seq(limit, i requires 0 <= i < limit => Slice(Offset(i), 0, SLOT));
      start, count, history := 0, 0, [];
    }

    /** Claim the next slot and cut its slice to the length the line needs. */
    method NextLine(length: nat) returns (index: nat)
      requires Shaped(storage.Length, lines, start, count)
      modifies this`lines, this`start, this`count
      ensures index == NextIndex(|old(lines)|, old(start), old(count)) < |old(lines)|
      ensures start == NextStart(|old(lines)|, old(start), old(count)) && count == NextCount(|old(lines)|, old(count))
      ensures lines == old(lines)[index := Slice(Offset(index), if length <= SLOT then length else SLOT, SLOT)]
    {
      WrapIsRemainder(start + count, |lines|);
      WrapIsRemainder(start + 1, |lines|);
      index := (start + count) % |lines|;
      if count == |lines| {
        index := start;
        start := (start + 1) % |lines|;
      } else {
        count := count + 1;
      }
      lines := lines[index := lines[index].(len := if length <= SLOT then length else SLOT)];
    }

    /** Claim the next slot and fill it; no other slot's window or slice changes. */
    method Place(line: bytes, compact: bool) returns (ghost index: nat, ghost n: nat)
      requires Shaped(storage.Length, lines, start, count)
      modifies this`lines, this`start, this`count, storage
      ensures index == NextIndex(|old(lines)|, old(start), old(count)) < |old(lines)| && n <= SLOT
      ensures start == NextStart(|old(lines)|, old(start), old(count)) && count == NextCount(|old(lines)|, old(count))
      ensures lines == Resliced(old(lines), index, n)
      ensures OnlyWindow(old(storage[..]), storage[..], index)
      ensures storage[Offset(index)..Offset(index) + n] == Shown(line, old(NextSlot()), compact)
    {
      var i := NextLine(|line|);
      var at := Offset(i);
      assert storage[at..at + SLOT] == old(NextSlot());
      var length := Fill(storage, at, line, compact);
      lines := lines[i := lines[i].(len := length)];
      index, n := i, length;
    }

    /** Store one prepared line in the next slot and, when asked, compact its timestamp there. */
    method Store(line: bytes, compact: bool)
      requires Valid() && line != []
      modifies this, storage
      ensures Valid() && storage == old(storage) && |lines| == |old(lines)|
      ensures history == old(history) + [Shown(line, old(NextSlot()), compact)]
    {
      ghost var before, data, start0, count0 := lines, storage[..], start, count;
      ghost var index, n := Place(line, compact);
      ghost var shown := storage[Offset(index)..Offset(index) + n];
      HistoryPush(data, storage[..], before, n, start0, count0, history, shown);
      history := history + [shown];
    }

    /** A journal line: trimmed, dropped when blank, bounded, its timestamp compacted. */
    method Add(line: bytes)
      requires Valid()
      modifies this, storage
      ensures Valid() && storage == old(storage) && |lines| == |old(lines)|
      ensures Spaces(line, 0, |line|) ==> history == old(history) && Contents() == old(Contents())
      ensures !Spaces(line, 0, |line|) ==> exists i: nat, j: nat ::
        TrimmedAt(line, i, j) && history == old(history) + [Compact(Bounded(line[i..j], old(NextSlot())))]
    {
      ghost var i, j := TrimMeans(line);
      var trimmed := Trim(line);
      if trimmed != [] {
        Store(trimmed, true);
      }
    }

    /** A console message: like `Add`, but shown as it is. */
    method AddString(line: bytes)
      requires Valid()
      modifies this, storage
      ensures Valid() && storage == old(storage) && |lines| == |old(lines)|
      ensures Trim(line) == [] ==> history == old(history) && Contents() == old(Contents())
      ensures Trim(line) != [] ==> history == old(history) + [Bounded(Trim(line), old(NextSlot()))]
      ensures Spaces(line, 0, |line|) ==> history == old(history) && Contents() == old(Contents())
      ensures !Spaces(line, 0, |line|) ==> exists i: nat, j: nat ::
        TrimmedAt(line, i, j) && history == old(history) + [Bounded(line[i..j], old(NextSlot()))]
    {
      ghost var i, j := TrimMeans(line);
      var trimmed := Trim(line);
      if trimmed != [] {
        Store(trimmed, false);
      }
    }

    /** The line at age `k`, oldest first. */
    method LineNumber(k: nat) returns (line: bytes)
      requires Shaped(storage.Length, lines, start, count) && k < count
      ensures line == Contents()[k]
    {
      WrapIsRemainder(start + k, |lines|);
      var index := (start + k) % |lines|;
      line := storage[lines[index].offset..lines[index].offset + lines[index].len];
      assert line == LineAt(storage[..], lines, index);
    }

    /** The stored lines, oldest first, read slot by slot under the lock. */
    method Lines() returns (c: seq<bytes>)
      requires Shaped(storage.Length, lines, start, count)
      ensures c == Contents()
    {
      c := [];
      for k := 0 to count
        invariant c == Contents()[..k]
      {
        var line := LineNumber(k);
        c := c + [line];
      }
    }

    /** Show the newest lines that fit the writer's remaining rows, oldest first. `rows` is the
        writer's measure of a line, at least one row each; `budget` its free rows. */
    method WriteTail(rows: bytes -> nat, budget: nat) returns (written: seq<bytes>)
      requires Valid() && forall b :: rows(b) >= 1
      ensures IsTail(Contents(), written, rows, budget)
    {
      var c := Lines();
      var selected := SelectTail(c, rows, budget);
      written := WriteFrom(c, |c| - selected, rows, budget);
    }
  }

  /** How many of the newest lines to show. */
  method SelectTail(c: seq<bytes>, rows: bytes -> nat, budget: nat) returns (selected: nat)
    requires forall b :: rows(b) >= 1
    ensures selected <= |c| && TailFrom(c, |c| - selected, rows, budget)
  {
    var selectedRows: nat := 0;
    selected := 0;
    SelectStart(c, rows, budget);
    while selected < |c| && selectedRows < budget
      invariant selected <= |c| && Selecting(c, |c| - selected, selectedRows, rows, budget)
    {
      var lineRows := rows(c[|c| - selected - 1]);
      if selected > 0 && selectedRows + lineRows > budget {
        break;
      }
      SelectStep(c, |c| - selected, selectedRows, rows, budget);
      selected := selected + 1;
      selectedRows := selectedRows + lineRows;
    }
    TailFound(c, |c| - selected, selectedRows, rows, budget);
  }

  /** Write lines from age `first` on until the writer is full: all of them fit. */
  method WriteFrom(c: seq<bytes>, first: nat, rows: bytes -> nat, budget: nat) returns (written: seq<bytes>)
    requires TailFrom(c, first, rows, budget) && forall b :: rows(b) >= 1
    ensures written == c[first..]
  {
    var remaining := budget;
    written := [];
    for k := first to |c|
      invariant written == c[first..k]
      invariant remaining == if Rows(written, rows) <= budget then budget - Rows(written, rows) else 0
    {
      RoomLeft(c, first, k, rows, budget);
      if remaining == 0 {
        break;
      }
      RowsUpTo(c, first, k, rows);
      written := written + [c[k]];
      remaining := if rows(c[k]) <= remaining then remaining - rows(c[k]) else 0;
    }
    assert c[first..|c|] == c[first..];
  }

  /** Before each selected line the writer still has a row, so it never stops early. */
  lemma RoomLeft(c: seq<bytes>, first: nat, k: nat, rows: bytes -> nat, budget: nat)
    requires TailFrom(c, first, rows, budget) && first <= k < |c| && forall b :: rows(b) >= 1
    ensures Rows(c[first..k], rows) < budget
  {
    if k == first {
      assert c[first..k] == [];
    } else {
      RowsBefore(c, first, k - first, rows);
    }
  }

  ghost function Rows(s: seq<bytes>, rows: bytes -> nat): nat {
    if s == [] then 0 else rows(s[0]) + Rows(s[1..], rows)
  }

  /** From age `first` on is the longest newest suffix that fits; the newest line is shown even when
      it alone overflows. */
  ghost predicate TailFrom(c: seq<bytes>, first: nat, rows: bytes -> nat, budget: nat) {
    && first <= |c|
    && (first < |c| <==> c != [] && budget > 0)
    && (first + 1 < |c| ==> Rows(c[first..], rows) <= budget)
    && (0 < first && budget > 0 ==> Rows(c[first - 1..], rows) > budget)
  }

  ghost predicate IsTail(c: seq<bytes>, w: seq<bytes>, rows: bytes -> nat, budget: nat) {
    |w| <= |c| && w == c[|c| - |w|..] && TailFrom(c, |c| - |w|, rows, budget)
  }

  lemma {:induction false} RowsConcat(a: seq<bytes>, b: seq<bytes>, rows: bytes -> nat)
    ensures Rows(a + b, rows) == Rows(a, rows) + Rows(b, rows)
  {
    if a == [] {
      assert a + b == b;
    } else {
      assert (a + b)[1..] == a[1..] + b;
      RowsConcat(a[1..], b, rows);
    }
  }

  lemma RowsFrom(c: seq<bytes>, k: nat, rows: bytes -> nat)
    requires k < |c|
    ensures Rows(c[k..], rows) == rows(c[k]) + Rows(c[k + 1..], rows)
  {
    assert c[k..][1..] == c[k + 1..];
  }

  lemma RowsUpTo(c: seq<bytes>, first: nat, k: nat, rows: bytes -> nat)
    requires first <= k < |c|
    ensures c[first..k + 1] == c[first..k] + [c[k]]
    ensures Rows(c[first..k + 1], rows) == Rows(c[first..k], rows) + rows(c[k])
  {
    RowsConcat(c[first..k], [c[k]], rows);
    assert c[first..k + 1] == c[first..k] + [c[k]];
  }

  /** One more line than fits overflows, since every line takes a row. */
  lemma RowsOverflow(c: seq<bytes>, first: nat, rows: bytes -> nat, budget: nat)
    requires 0 < first <= |c| && forall b :: rows(b) >= 1
    requires Rows(c[first..], rows) >= budget || Rows(c[first..], rows) + rows(c[first - 1]) > budget
    ensures Rows(c[first - 1..], rows) > budget
  {
    RowsFrom(c, first - 1, rows);
  }

  /** What the selection loop knows at every turn. */
  ghost predicate Selecting(c: seq<bytes>, first: nat, total: nat, rows: bytes -> nat, budget: nat) {
    && first <= |c| && total == Rows(c[first..], rows)
    && (first < |c| ==> budget > 0) && (first + 1 < |c| ==> total <= budget)
  }

  lemma SelectStart(c: seq<bytes>, rows: bytes -> nat, budget: nat)
    ensures Selecting(c, |c|, 0, rows, budget)
  {
    assert c[|c|..] == [];
  }

  lemma SelectStep(c: seq<bytes>, first: nat, total: nat, rows: bytes -> nat, budget: nat)
    requires Selecting(c, first, total, rows, budget) && 0 < first && total < budget
    requires first < |c| ==> total + rows(c[first - 1]) <= budget
    ensures Selecting(c, first - 1, total + rows(c[first - 1]), rows, budget)
  {
    RowsFrom(c, first - 1, rows);
  }

  lemma TailFound(c: seq<bytes>, first: nat, total: nat, rows: bytes -> nat, budget: nat)
    requires Selecting(c, first, total, rows, budget) && forall b :: rows(b) >= 1
    requires first == 0 || total >= budget || (first < |c| && total + rows(c[first - 1]) > budget)
    ensures TailFrom(c, first, rows, budget)
  {
    if first > 0 && budget > 0 {
      RowsOverflow(c, first, rows, budget);
    }
    SelectStart(c, rows, budget);
  }

  lemma RowsBefore(c: seq<bytes>, first: nat, offset: nat, rows: bytes -> nat)
    requires first + offset < |c| && forall b :: rows(b) >= 1
    ensures Rows(c[first..first + offset], rows) < Rows(c[first..], rows)
  {
    assert c[first..] == c[first..first + offset] + c[first + offset..];
    RowsConcat(c[first..first + offset], c[first + offset..], rows);
  }

  /** There is only one such tail. */
  lemma TailUnique(c: seq<bytes>, v: seq<bytes>, w: seq<bytes>, rows: bytes -> nat, budget: nat)
    requires forall b :: rows(b) >= 1
    requires IsTail(c, v, rows, budget) && IsTail(c, w, rows, budget) && |v| <= |w|
    ensures v == w
  {
    if |v| < |w| {
      RowsMonotone(c, |c| - |w|, |c| - |v| - 1, rows);
    }
  }

  lemma RowsMonotone(c: seq<bytes>, i: nat, j: nat, rows: bytes -> nat)
    requires i <= j <= |c|
    ensures Rows(c[j..], rows) <= Rows(c[i..], rows)
  {
    assert c[i..] == c[i..j] + c[j..];
    RowsConcat(c[i..j], c[j..], rows);
  }

  lemma OneSlot(data: bytes, lines: seq<Slice>, start: nat, count: nat, line: bytes)
    requires Shaped(|data|, lines, start, count) && |lines| == 1 && |line| == SLOT
    requires View(data, lines, start, count) == [line]
    ensures var at := Offset(NextIndex(1, start, count)); at + SLOT <= |data| && data[at..at + SLOT] == line
  {
    var shown := View(data, lines, start, count);
    assert |shown| == 1 && start == 0;
    assert shown[0] == LineAt(data, lines, Wrap(start + 0, |lines|));
  }

  /** Two messages into a ring of one slot: what shows is the second, bounded over the first. */
  method TwoInOneSlot(former: bytes, latter: bytes) returns (shown: seq<bytes>)
    requires |former| == SLOT && Trim(former) == former && Trim(latter) == latter != []
    ensures shown == [Bounded(latter, former)]
  {
    var ring := new Ring(1);
    ring.AddString(former);
    ghost var slot := ring.NextSlot();
    assert ring.history == [former] && ring.Contents() == [former];
    OneSlot(ring.storage[..], ring.lines, ring.start, ring.count, former);
    assert slot == former;
    ring.AddString(latter);
    assert ring.history == [former, Bounded(latter, slot)];
    shown := ring.Lines();
    assert shown == [Bounded(latter, slot)];
  }

  /** Two messages into a ring of one slot: the second is longer than the slot and a character straddles
      the cut, so a byte of the first, found neither in the second nor in the marker, stays on show. */
  method OldByteShows() returns (shown: seq<bytes>)
    ensures |shown| == 1 && |shown[0]| == SLOT && shown[0][SLOT - 1] == 0x62
    ensures 0x62 !in MARKER && 0x62 !in STRADDLING && ValidUtf8(STRADDLING)
  {
    var former := seq(SLOT, _ => 0x62);
    NothingToTrim(former);
    StraddlingFacts();
    shown := TwoInOneSlot(former, STRADDLING);
  }
}
