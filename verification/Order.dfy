/** Go's order on strings and `sort.Slice` by a string key. */
module Order {

  /** Go's `<` on strings: bytewise order of UTF-8 is the order of code points. */
  predicate Less(a: string, b: string) {
    b != [] && (a == [] || a[0] < b[0] || (a[0] == b[0] && Less(a[1..], b[1..])))
  }

  /** The first difference is at `k`, and there `a` ends or has the smaller character. */
  ghost predicate BelowAt(a: string, b: string, k: nat) {
    k <= |a| && k < |b| && a[..k] == b[..k] && (k == |a| || a[k] < b[k])
  }

  lemma {:induction false} LessMeans(a: string, b: string)
    ensures Less(a, b) <==> exists k :: BelowAt(a, b, k)
  {
    if a == [] || b == [] || a[0] != b[0] {
      assert b != [] ==> (BelowAt(a, b, 0) <==> Less(a, b));
      assert forall k: nat | 0 < k && BelowAt(a, b, k) :: a[..k][0] == a[0] && b[..k][0] == b[0];
    } else {
      LessMeans(a[1..], b[1..]);
      if k: nat :| BelowAt(a, b, k) {
        BelowTails(a, b, if k == 0 then 0 else k - 1);
      }
      if k: nat :| BelowAt(a[1..], b[1..], k) {
        BelowTails(a, b, k);
      }
    }
  }

  lemma BelowTails(a: string, b: string, k: nat)
    requires a != [] && b != [] && a[0] == b[0]
    ensures BelowAt(a, b, k + 1) <==> BelowAt(a[1..], b[1..], k)
    ensures !BelowAt(a, b, 0)
  {
    if k <= |a[1..]| && k < |b[1..]| {
      assert a[..k + 1] == [a[0]] + a[1..][..k] && b[..k + 1] == [b[0]] + b[1..][..k];
      assert a[1..][..k] == a[..k + 1][1..] && b[1..][..k] == b[..k + 1][1..];
    }
  }

  /** No element comes strictly after a later one. */
  ghost predicate SortedBy<T>(s: seq<T>, key: T -> string) {
    forall i, j | 0 <= i < j < |s| :: !Less(key(s[j]), key(s[i]))
  }

  lemma {:induction false} LessTotal(a: string, b: string)
    ensures Less(a, b) || Less(b, a) || a == b
  {
    if a != [] && b != [] {
      LessTotal(a[1..], b[1..]);
      if a[0] == b[0] && a[1..] == b[1..] {
        assert a == [a[0]] + a[1..] && b == [b[0]] + b[1..];
      }
    }
  }

  lemma {:induction false} LessAsymmetric(a: string, b: string)
    requires Less(a, b)
    ensures !Less(b, a) && a != b
  {
    if a != [] && a[0] == b[0] {
      LessAsymmetric(a[1..], b[1..]);
    }
  }

  lemma {:induction false} AtMostTransitive(a: string, b: string, c: string)
    requires !Less(b, a) && !Less(c, b)
    ensures !Less(c, a)
  {
    if Less(c, a) && c != [] && b != [] {
      if c[0] == a[0] && a[0] == b[0] {
        AtMostTransitive(a[1..], b[1..], c[1..]);
      }
    }
  }

  /** Any sort by a key; where keys are distinct the result is the only sorted arrangement. */
  function SortBy<T(==)>(s: seq<T>, key: T -> string): (r: seq<T>)
    ensures multiset(r) == multiset(s)
    ensures SortedBy(r, key)
    ensures |r| == |s|
  {
    if s == [] then [] else
      assert s == [s[0]] + s[1..];
      Insert(s[0], SortBy(s[1..], key), key)
  }

  function Insert<T(==)>(x: T, s: seq<T>, key: T -> string): (r: seq<T>)
    requires SortedBy(s, key)
    ensures multiset(r) == multiset{x} + multiset(s)
    ensures SortedBy(r, key)
    ensures |r| == |s| + 1
  {
    if s == [] then [x]
    else if Less(key(s[0]), key(x)) then
      var r := [s[0]] + Insert(x, s[1..], key);
      assert s == [s[0]] + s[1..];
      InsertedSorted(s[0], x, s[1..], Insert(x, s[1..], key), key);
      r
    else
      PrependedSorted(x, s, key);
      [x] + s
  }

  lemma PrependedSorted<T>(x: T, s: seq<T>, key: T -> string)
    requires SortedBy(s, key) && s != [] && !Less(key(s[0]), key(x))
    ensures SortedBy([x] + s, key)
  {
    var r := [x] + s;
    forall i, j | 0 <= i < j < |r| ensures !Less(key(r[j]), key(r[i])) {
      if i == 0 && j > 1 {
        AtMostTransitive(key(x), key(s[0]), key(s[j - 1]));
      }
    }
  }

  lemma InsertedSorted<T>(h: T, x: T, s: seq<T>, t: seq<T>, key: T -> string)
    requires SortedBy([h] + s, key) && SortedBy(t, key)
    requires multiset(t) == multiset{x} + multiset(s)
    requires Less(key(h), key(x))
    ensures SortedBy([h] + t, key)
  {
    var r := [h] + t;
    forall i, j | 0 <= i < j < |r| ensures !Less(key(r[j]), key(r[i])) {
      if i == 0 {
        assert t[j - 1] in multiset(t);
        if t[j - 1] == x {
          LessAsymmetric(key(h), key(x));
        } else {
          assert t[j - 1] in s;
          var k :| 0 <= k < |s| && s[k] == t[j - 1];
          assert ([h] + s)[k + 1] == t[j - 1] && ([h] + s)[0] == h;
        }
      }
    }
  }

  /** Two sorted arrangements of the same elements agree when the key tells elements apart. */
  lemma {:induction false} SortedUnique<T>(a: seq<T>, b: seq<T>, key: T -> string)
    requires SortedBy(a, key) && SortedBy(b, key) && multiset(a) == multiset(b)
    requires forall x, y | x in a && y in a && key(x) == key(y) :: x == y
    ensures a == b
  {
    assert |a| == |multiset(a)| == |multiset(b)| == |b|;
    if a != [] {
      SameHead(a, b, key);
      SameTails(a, b);
      TailSorted(a, key);
      TailSorted(b, key);
      SortedUnique(a[1..], b[1..], key);
    }
  }

  lemma SameTails<T>(a: seq<T>, b: seq<T>)
    requires a != [] && b != [] && a[0] == b[0] && multiset(a) == multiset(b)
    ensures multiset(a[1..]) == multiset(b[1..]) && a == [a[0]] + a[1..] && b == [a[0]] + b[1..]
  {
    assert a == [a[0]] + a[1..] && b == [a[0]] + b[1..];
    assert multiset(a[1..]) == multiset(a) - multiset{a[0]} == multiset(b[1..]);
  }

  lemma TailSorted<T>(a: seq<T>, key: T -> string)
    requires SortedBy(a, key) && a != []
    ensures SortedBy(a[1..], key)
  {
    var t := a[1..];
    forall i, j | 0 <= i < j < |t| ensures !Less(key(t[j]), key(t[i])) {
      assert t[i] == a[i + 1] && t[j] == a[j + 1];
    }
  }

  lemma SameHead<T>(a: seq<T>, b: seq<T>, key: T -> string)
    requires SortedBy(a, key) && SortedBy(b, key) && multiset(a) == multiset(b) && a != [] && b != []
    requires forall x, y | x in a && y in a && key(x) == key(y) :: x == y
    ensures a[0] == b[0]
  {
    assert a[0] in multiset(b) && b[0] in multiset(a);
    HeadLeast(a, b[0], key);
    HeadLeast(b, a[0], key);
    LessTotal(key(a[0]), key(b[0]));
  }

  lemma HeadLeast<T>(a: seq<T>, x: T, key: T -> string)
    requires SortedBy(a, key) && x in a
    ensures !Less(key(x), key(a[0]))
  {
    var i :| 0 <= i < |a| && a[i] == x;
    LessIrreflexive(key(x));
  }

  lemma LessIrreflexive(a: string)
    ensures !Less(a, a)
  {
    if Less(a, a) {
      LessAsymmetric(a, a);
    }
  }

  /** Distinct keys stay distinct, in any arrangement of the same elements. */
  lemma SortByDistinct<T>(s: seq<T>, key: T -> string, id: T -> string)
    requires forall i, j | 0 <= i < j < |s| :: id(s[i]) != id(s[j])
    ensures forall i, j | 0 <= i < j < |s| :: id(SortBy(s, key)[i]) != id(SortBy(s, key)[j])
  {
    var r := SortBy(s, key);
    forall i, j | 0 <= i < j < |r| ensures id(r[i]) != id(r[j]) {
      if id(r[i]) == id(r[j]) {
        assert r[i] in multiset(s) && r[j] in multiset(s);
        var a :| 0 <= a < |s| && s[a] == r[i];
        var b :| 0 <= b < |s| && s[b] == r[j];
        assert a == b;
        TwiceInMultiset(r, i, j);
        OnceInMultiset(s, a, id);
        assert false;
      }
    }
  }

  lemma TwiceInMultiset<T>(s: seq<T>, i: int, j: int)
    requires 0 <= i < j < |s| && s[i] == s[j]
    ensures multiset(s)[s[i]] >= 2
  {
    assert s == s[..j] + [s[j]] + s[j + 1..];
    assert s[..j][i] == s[i];
    assert s[i] in multiset(s[..j]);
  }

  lemma OnceInMultiset<T>(s: seq<T>, a: int, id: T -> string)
    requires 0 <= a < |s|
    requires forall i, j | 0 <= i < j < |s| :: id(s[i]) != id(s[j])
    ensures multiset(s)[s[a]] == 1
  {
    assert s == s[..a] + [s[a]] + s[a + 1..];
    assert s[a] !in s[..a] && s[a] !in s[a + 1..];
  }
}
