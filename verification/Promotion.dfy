/** Promoting a verified Kubernetes bundle: three registry tags are checked, then written in a
    fixed order. Writers are serialised, but any of them may stop after any single write. */
module Promotion {
  type Registry = map<string, string>

  /** `lands` tells whether a write whose reply was lost took effect, `confirms` whether the tag is then read back
      with the digest just written. */
  datatype WriteReply = WriteFails(lands: bool) | Writes

  datatype Env = Env(readable: string -> bool, resolves: bool, write: string -> WriteReply, confirms: string -> bool)

  // ---------------------------------------------------------------------------------------
  // Versions and their tags

  predicate Digit(c: char) {
    '0' <= c <= '9'
  }

  /** A decimal number without leading zeros. */
  predicate Numeral(s: string) {
    s != "" && (forall c | c in s :: Digit(c)) && (s[0] == '0' ==> |s| == 1)
  }

  /** Stable releases: v1.MINOR.PATCH. */
  predicate Stable(v: string) {
    exists i | 3 <= i < |v| :: v[..3] == "v1." && v[i] == '.' && Numeral(v[3..i]) && Numeral(v[i + 1..])
  }

  function Revision(v: string): string {
    v + "-1"
  }

  function Compatible(v: string): string {
    "compatible-" + v + "-x86_64-katl-runtime-1"
  }

  function CheckOrder(v: string): seq<string> {
    [v, Revision(v), Compatible(v)]
  }

  function WriteOrder(v: string): seq<string> {
    [Compatible(v), Revision(v), v]
  }

  lemma StableShape(v: string)
    requires Stable(v)
    ensures v[0] == 'v' && '-' !in v
  {
    var i :| 3 <= i < |v| && v[..3] == "v1." && v[i] == '.' && Numeral(v[3..i]) && Numeral(v[i + 1..]);
    assert v == v[..3] + v[3..i] + [v[i]] + v[i + 1..];
    assert '-' !in v[..3] && '-' !in v[3..i] && '-' !in v[i + 1..];
    assert v[..3][0] == 'v';
  }

  /** No tag serves two versions, and the three tags of one version differ. */
  lemma TagsApart(v: string, u: string, i: nat, j: nat)
    requires Stable(v) && Stable(u) && i < 3 && j < 3
    ensures WriteOrder(v)[i] == WriteOrder(u)[j] ==> v == u && i == j
  {
    StableShape(v);
    StableShape(u);
    assert Compatible(v)[0] == 'c' && Compatible(u)[0] == 'c' && Revision(v)[0] == 'v' && Revision(u)[0] == 'v';
    assert Revision(v)[|v|] == '-' && Revision(u)[|u|] == '-';
    assert Revision(v)[..|v|] == v && Revision(u)[..|u|] == u;
    assert |Compatible(v)| == |v| + 33 && |Compatible(u)| == |u| + 33;
    assert Compatible(v)[11..11 + |v|] == v && Compatible(u)[11..11 + |u|] == u;
  }

  // ---------------------------------------------------------------------------------------
  // One attempt

  ghost predicate Conflict(reg: Registry, v: string, digest: string) {
    exists t :: t in CheckOrder(v) && t in reg && reg[t] != digest
  }

  ghost function Written(reg: Registry, tags: seq<string>, digest: string): Registry {
    if tags == [] then reg else Written(reg, tags[..|tags| - 1], digest)[tags[|tags| - 1] := digest]
  }

  /** The first `k` writes of a promotion that found no conflict. */
  ghost predicate Attempted(reg: Registry, after: Registry, v: string, digest: string, k: nat) {
    && k <= 3 && after == Written(reg, WriteOrder(v)[..k], digest)
    && (k > 0 ==> Stable(v) && !Conflict(reg, v, digest))
  }

  /** All that is looked at before the first write. */
  ghost predicate Ready(reg: Registry, v: string, digest: string, env: Env) {
    Stable(v) && !Conflict(reg, v, digest) && env.resolves && forall t | t in CheckOrder(v) :: env.readable(t)
  }

  ghost predicate Goes(env: Env, tag: string) {
    env.write(tag) == Writes && env.confirms(tag)
  }

  /** Writing stops at the first tag that is not written and confirmed; that tag, too, is placed unless its
      write failed without effect. */
  ghost predicate StopsAt(reg: Registry, v: string, digest: string, env: Env, n: nat, after: Registry, ok: bool) {
    && n <= 3 && (ok <==> n == 3) && (forall j | 0 <= j < n :: Goes(env, WriteOrder(v)[j]))
    && (n < 3 ==> !Goes(env, WriteOrder(v)[n]))
    && var placed := if n < 3 && env.write(WriteOrder(v)[n]) != WriteFails(false) then n + 1 else n;
      after == Written(reg, WriteOrder(v)[..placed], digest)
  }

  ghost predicate Helpful(env: Env, v: string) {
    env.resolves && forall t | t in CheckOrder(v) :: env.readable(t) && env.confirms(t) && env.write(t) == Writes
  }

  /** One attempt: nothing happens unless it is ready, and then the writes go as far as the registry lets them. */
  ghost predicate Ran(reg: Registry, v: string, digest: string, env: Env, after: Registry, ok: bool) {
    && (exists k :: Attempted(reg, after, v, digest, k) && (ok ==> k == 3))
    && (!Ready(reg, v, digest, env) ==> !ok && after == reg)
    && (Ready(reg, v, digest, env) ==> exists n :: StopsAt(reg, v, digest, env, n, after, ok))
    && (Stable(v) && Helpful(env, v) && !Conflict(reg, v, digest) ==> ok)
  }

  method Promote(reg: Registry, v: string, digest: string, env: Env) returns (after: Registry, ok: bool)
    ensures Ran(reg, v, digest, env, after, ok)
  {
    assert Written(reg, WriteOrder(v)[..0], digest) == reg;
    assert Attempted(reg, reg, v, digest, 0);
    if !Stable(v) {
      return reg, false;
    }
    var checks := CheckOrder(v);
    for i := 0 to 3
      invariant forall j | 0 <= j < i :: env.readable(checks[j])
      invariant forall j | 0 <= j < i :: checks[j] in reg ==> reg[checks[j]] == digest
    {
      assert checks[i] in CheckOrder(v);
      if !env.readable(checks[i]) {
        return reg, false;
      }
      if checks[i] in reg && reg[checks[i]] != digest {
        return reg, false;
      }
    }
    if !env.resolves {
      return reg, false;
    }
    after, ok := WriteAll(reg, v, digest, env);
  }

  method WriteAll(reg: Registry, v: string, digest: string, env: Env) returns (after: Registry, ok: bool)
    requires Stable(v) && !Conflict(reg, v, digest)
    ensures exists k :: Attempted(reg, after, v, digest, k) && (ok ==> k == 3)
    ensures exists n :: StopsAt(reg, v, digest, env, n, after, ok)
    ensures Helpful(env, v) ==> ok
  {
    after := reg;
    var writes := WriteOrder(v);
    for i := 0 to 3
      invariant after == Written(reg, writes[..i], digest)
      invariant forall j | 0 <= j < i :: Goes(env, writes[j])
    {
      assert writes[i] in CheckOrder(v);
      assert writes[..i + 1][..i] == writes[..i];
      assert Attempted(reg, after, v, digest, i) && Attempted(reg, after[writes[i] := digest], v, digest, i + 1);
      var reply := env.write(writes[i]);
      if reply == Writes || reply.lands {
        after := after[writes[i] := digest];
      }
      if reply != Writes {
        assert StopsAt(reg, v, digest, env, i, after, false);
        return after, false;
      }
      if !env.confirms(writes[i]) {
        assert StopsAt(reg, v, digest, env, i, after, false);
        return after, false;
      }
    }
    assert Attempted(reg, after, v, digest, 3);
    ok := true;
    assert StopsAt(reg, v, digest, env, 3, after, ok);
  }

  // ---------------------------------------------------------------------------------------
  // What every attempt keeps

  /** No tag moves or disappears. */
  ghost predicate WriteOnce(reg: Registry, after: Registry) {
    forall t | t in reg :: t in after && after[t] == reg[t]
  }

  /** The tags of a version appear in writing order and name one digest. */
  ghost predicate Staged(reg: Registry, v: string) {
    forall i, j | 0 <= i < j < 3 && WriteOrder(v)[j] in reg ::
      WriteOrder(v)[i] in reg && reg[WriteOrder(v)[i]] == reg[WriteOrder(v)[j]]
  }

  ghost predicate Orderly(reg: Registry) {
    forall v | Stable(v) :: Staged(reg, v)
  }

  lemma {:induction false} WrittenAt(reg: Registry, tags: seq<string>, digest: string, t: string)
    ensures t in Written(reg, tags, digest) <==> t in reg || t in tags
    ensures t in tags ==> Written(reg, tags, digest)[t] == digest
    ensures t in reg && t !in tags ==> Written(reg, tags, digest)[t] == reg[t]
  {
    if tags != [] {
      WrittenAt(reg, tags[..|tags| - 1], digest, t);
      assert tags == tags[..|tags| - 1] + [tags[|tags| - 1]];
    }
  }

  /** Wherever an attempt stops, no tag moved, only tags of its version appeared, and every
      version is still staged. */
  lemma AttemptKeeps(reg: Registry, after: Registry, v: string, digest: string, k: nat)
    requires Orderly(reg) && Attempted(reg, after, v, digest, k)
    ensures WriteOnce(reg, after) && Orderly(after)
    ensures forall t | t in after && t !in reg :: t in WriteOrder(v) && after[t] == digest
    ensures k == 3 ==> forall t | t in CheckOrder(v) :: t in after && after[t] == digest
  {
    var tags := WriteOrder(v)[..k];
    forall t ensures t in after <==> t in reg || t in tags ensures t in tags ==> after[t] == digest
      ensures t in reg ==> after[t] == reg[t]
    {
      WrittenAt(reg, tags, digest, t);
      assert t in tags ==> t in CheckOrder(v);
    }
    assert k == 3 ==> tags == WriteOrder(v);
    forall u | Stable(u) ensures Staged(after, u) {
      KeepsStaged(reg, after, v, digest, k, u);
    }
  }

  lemma KeepsStaged(reg: Registry, after: Registry, v: string, digest: string, k: nat, u: string)
    requires Staged(reg, u) && Stable(u) && Attempted(reg, after, v, digest, k)
    requires var tags := WriteOrder(v)[..k];
      forall t ::
        && (t in after <==> t in reg || t in tags)
        && (t in tags ==> after[t] == digest) && (t in reg ==> after[t] == reg[t])
    ensures Staged(after, u)
  {
    var tags := WriteOrder(v)[..k];
    forall i, j | 0 <= i < j < 3 && WriteOrder(u)[j] in after
      ensures WriteOrder(u)[i] in after && after[WriteOrder(u)[i]] == after[WriteOrder(u)[j]]
    {
      var ti, tj := WriteOrder(u)[i], WriteOrder(u)[j];
      if tj in tags {
        var n :| 0 <= n < k && tags[n] == tj;
        TagsApart(v, u, n, j);
        assert tags[i] == ti && ti in tags;
      } else if v == u && k > 0 {
        assert tj in CheckOrder(v) && reg[tj] == digest;
      }
    }
  }

  /** Wherever the plain version tag exists, all three aliases name its digest. */
  ghost predicate PublishedWhole(reg: Registry) {
    forall v, t | Stable(v) && v in reg && t in CheckOrder(v) :: t in reg && reg[t] == reg[v]
  }

  lemma OrderlyIsWhole(reg: Registry)
    requires Orderly(reg)
    ensures PublishedWhole(reg)
  {
    forall v, t | Stable(v) && v in reg && t in CheckOrder(v) ensures t in reg && reg[t] == reg[v] {
      assert Staged(reg, v) && WriteOrder(v)[2] == v;
      assert t == WriteOrder(v)[0] || t == WriteOrder(v)[1] || t == WriteOrder(v)[2];
    }
  }

  datatype Attempt = Attempt(version: string, digest: string, env: Env)

  ghost predicate Tried(reg: Registry, a: Attempt, after: Registry, ok: bool) {
    Ran(reg, a.version, a.digest, a.env, after, ok)
  }

  method PromoteOnce(reg: Registry, a: Attempt) returns (after: Registry, ok: bool)
    requires Orderly(reg)
    ensures Tried(reg, a, after, ok) && Orderly(after) && PublishedWhole(after) && WriteOnce(reg, after)
  {
    after, ok := Promote(reg, a.version, a.digest, a.env);
    ghost var k :| Attempted(reg, after, a.version, a.digest, k) && (ok ==> k == 3);
    AttemptKeeps(reg, after, a.version, a.digest, k);
    OrderlyIsWhole(after);
  }

  /** Any number of attempts at any versions and digests, each stopped anywhere. */
  method AnyPromotions(reg: Registry, attempts: seq<Attempt>) returns (registries: seq<Registry>, oks: seq<bool>)
    requires Orderly(reg)
    ensures |oks| == |attempts| && |registries| == |attempts| + 1 && registries[0] == reg
    ensures forall i | 0 <= i < |attempts| :: Tried(registries[i], attempts[i], registries[i + 1], oks[i])
    ensures forall i | 0 <= i < |registries| :: Orderly(registries[i]) && PublishedWhole(registries[i])
    ensures forall i, j | 0 <= i <= j < |registries| :: WriteOnce(registries[i], registries[j])
  {
    registries, oks := [reg], [];
    OrderlyIsWhole(reg);
    for i := 0 to |attempts|
      invariant |oks| == i && |registries| == i + 1 && registries[0] == reg
      invariant forall k | 0 <= k < i :: Tried(registries[k], attempts[k], registries[k + 1], oks[k])
      invariant forall k | 0 <= k <= i :: Orderly(registries[k]) && PublishedWhole(registries[k])
      invariant forall k, j | 0 <= k <= j <= i :: WriteOnce(registries[k], registries[j])
    {
      var next, ok := PromoteOnce(registries[i], attempts[i]);
      registries, oks := registries + [next], oks + [ok];
    }
  }

  /** An interrupted promotion leaves nothing in its own way, so a helpful retry completes it; and
      once it placed any tag, no other digest gets in. */
  method Retry(reg: Registry, v: string, digest: string, env: Env, others: seq<Attempt>, again: Env)
    returns (middle: Registry, after: Registry, ok: bool)
    requires Orderly(reg) && Helpful(again, v)
    ensures exists k :: Attempted(reg, middle, v, digest, k)
    ensures middle != reg ==> ok && forall t | t in CheckOrder(v) :: t in after && after[t] == digest
  {
    var done;
    middle, done := Promote(reg, v, digest, env);
    ghost var k :| Attempted(reg, middle, v, digest, k);
    AttemptKeeps(reg, middle, v, digest, k);
    if middle == reg {
      return middle, middle, done;
    }
    var registries, oks := AnyPromotions(middle, others);
    var later := registries[|others|];
    HeldFor(reg, middle, later, v, digest, k);
    after, ok := Promote(later, v, digest, again);
    ghost var n :| Attempted(later, after, v, digest, n) && (ok ==> n == 3);
    AttemptKeeps(later, after, v, digest, n);
  }

  lemma HeldFor(reg: Registry, middle: Registry, later: Registry, v: string, digest: string, k: nat)
    requires Attempted(reg, middle, v, digest, k) && middle != reg && Orderly(later) && WriteOnce(middle, later)
    ensures !Conflict(later, v, digest)
  {
    var first := WriteOrder(v)[0];
    assert first in WriteOrder(v)[..k] by {
      assert k > 0 && WriteOrder(v)[..k][0] == first;
    }
    WrittenAt(reg, WriteOrder(v)[..k], digest, first);
    assert later[first] == digest && Staged(later, v);
    forall t | t in CheckOrder(v) && t in later ensures later[t] == digest {
      assert t == WriteOrder(v)[0] || t == WriteOrder(v)[1] || t == WriteOrder(v)[2];
    }
  }
}
