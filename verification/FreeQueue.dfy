/** The block pool's free queue with the drafter priority of
    overlay/patch_apc_per_group_retention.py. Blocks are ids; a block carries the group
    ids of the prefix-cache keys it is registered under, and none if it is unhashed. */
module FreeQueue {
  import opened Common

  /** Reuse order of a free block. */
  datatype Rank = First | BeforeNormal | Ordinary

  datatype Policy = Policy(n: nat, nullId: nat, caching: bool, low: set<nat>)

  datatype Pool = Pool(ref: seq<int>, keys: seq<seq<nat>>, queue: seq<nat>)

  function RankOf(c: Policy, keys: seq<nat>): Rank {
    if keys == [] || !c.caching then First
    else if c.low != {} && forall i :: 0 <= i < |keys| ==> keys[i] in c.low then BeforeNormal
    else Ordinary
  }

  function RankIn(c: Policy, p: Pool, b: nat): Rank {
    if b < |p.keys| then RankOf(c, p.keys[b]) else First
  }

  predicate InRange(c: Policy, blocks: seq<nat>) { forall i :: 0 <= i < |blocks| ==> blocks[i] < c.n }

  /** Reference counts after dropping one reference per listed block. */
  function Drop(ref: seq<int>, blocks: seq<nat>): (r: seq<int>)
    requires forall i :: 0 <= i < |blocks| ==> blocks[i] < |ref|
    ensures |r| == |ref|
    decreases |blocks|
  {
    if blocks == [] then ref else Drop(ref[blocks[0] := ref[blocks[0]] - 1], blocks[1..])
  }

  /** Blocks whose last reference goes, in the order it goes. */
  function Released(ref: seq<int>, blocks: seq<nat>, nullId: nat): seq<nat>
    requires forall i :: 0 <= i < |blocks| ==> blocks[i] < |ref|
    decreases |blocks|
  {
    if blocks == [] then []
    else
      var b := blocks[0];
      (if ref[b] == 1 && b != nullId then [b] else []) + Released(ref[b := ref[b] - 1], blocks[1..], nullId)
  }

  /** The sub-list of one rank, in order. */
  function Of(c: Policy, keys: seq<seq<nat>>, s: seq<nat>, k: Rank): seq<nat> {
    if s == [] then []
    else if HasRank(c, keys, s[0], k) then [s[0]] + Of(c, keys, s[1..], k) else Of(c, keys, s[1..], k)
  }

  predicate HasRank(c: Policy, keys: seq<seq<nat>>, b: nat, k: Rank) { b < |keys| && RankOf(c, keys[b]) == k }

  lemma {:induction false} OfMember(c: Policy, keys: seq<seq<nat>>, s: seq<nat>, k: Rank, b: nat)
    ensures b in Of(c, keys, s, k) <==> b in s && HasRank(c, keys, b, k)
  {
    if s != [] {
      assert s == [s[0]] + s[1..];
      OfMember(c, keys, s[1..], k, b);
    }
  }

  /** `BlockPool.free_blocks`. */
  function Free(c: Policy, p: Pool, blocks: seq<nat>): Pool
    requires |p.ref| == c.n && InRange(c, blocks)
  {
    var out: seq<nat> := Released(p.ref, blocks, c.nullId);
    Pool(Drop(p.ref, blocks), p.keys,
         Of(c, p.keys, out, First) + Of(c, p.keys, out, BeforeNormal) + p.queue + Of(c, p.keys, out, Ordinary))
  }

  function WithoutKeys(keys: seq<seq<nat>>, blocks: seq<nat>): (r: seq<seq<nat>>)
    ensures |r| == |keys| && forall b :: 0 <= b < |r| ==> r[b] == if b in blocks then [] else keys[b]
  {
    seq(|keys|, b requires 0 <= b < |keys| => if b in blocks then [] else keys[b])
  }

  function WithRef(ref: seq<int>, blocks: seq<nat>): (r: seq<int>)
    ensures |r| == |ref| && forall b :: 0 <= b < |r| ==> r[b] == if b in blocks then 1 else ref[b]
  {
    seq(|ref|, b requires 0 <= b < |ref| => if b in blocks then 1 else ref[b])
  }

  /** Allocation pops the front; a popped block loses its cache keys. */
  function Allocate(p: Pool, k: nat): Pool
    requires k <= |p.queue|
  {
    Pool(WithRef(p.ref, p.queue[..k]), WithoutKeys(p.keys, p.queue[..k]), p.queue[k..])
  }

  function Remove(s: seq<nat>, b: nat): (r: seq<nat>)
    ensures b !in s ==> r == s
  {
    if s == [] then [] else if s[0] == b then s[1..] else [s[0]] + Remove(s[1..], b)
  }

  /** A prefix hit takes a reference; a free block leaves the queue. */
  function Touch(c: Policy, p: Pool, b: nat): Pool
    requires |p.ref| == c.n && b < c.n
  {
    Pool(p.ref[b := p.ref[b] + 1], p.keys, if p.ref[b] == 0 && b != c.nullId then Remove(p.queue, b) else p.queue)
  }

  /** A block in use is registered under one more key. */
  function Register(c: Policy, p: Pool, b: nat, group: nat): Pool
    requires |p.keys| == c.n && b < c.n
  {
    p.(keys := p.keys[b := p.keys[b] + [group]])
  }

  /** One key outside the drafter's groups protects a cached block, whatever the others
      are; a block is low-priority only while all of its keys are the drafter's. */
  lemma OneTargetKeyProtects(c: Policy, p: Pool, b: nat, group: nat)
    requires |p.keys| == c.n && b < c.n && c.caching
    ensures RankIn(c, Register(c, p, b, group), b) == Ordinary <==> group !in c.low || RankIn(c, p, b) == Ordinary
    ensures RankIn(c, Register(c, p, b, group), b) != First
  {
    var had, has := p.keys[b], p.keys[b] + [group];
    assert has[|had|] == group && forall i :: 0 <= i < |had| ==> has[i] == had[i];
  }

  // ----- the invariant -----

  predicate Distinct(s: seq<nat>) { forall i, j :: 0 <= i < j < |s| ==> s[i] != s[j] }

  /** No ordinary cached block precedes an unhashed or low-priority one. */
  ghost predicate Ordered(c: Policy, p: Pool) {
    forall i, j :: 0 <= i < j < |p.queue| && RankIn(c, p, p.queue[i]) == Ordinary ==> RankIn(c, p, p.queue[j]) == Ordinary
  }

  ghost predicate PoolOk(c: Policy, p: Pool) {
    && |p.ref| == |p.keys| == c.n && c.nullId < c.n
    && InRange(c, p.queue) && Distinct(p.queue)
    && (forall b :: 0 <= b < c.n && b != c.nullId ==> p.ref[b] >= 0)
    && (forall b: nat :: b < c.n ==> (b in p.queue <==> p.ref[b] == 0 && b != c.nullId))
    && Ordered(c, p)
  }

  /** How often `b` is listed. */
  function Times(s: seq<nat>, b: nat): nat {
    if s == [] then 0 else (if s[0] == b then 1 else 0) + Times(s[1..], b)
  }

  lemma {:induction false} TimesIn(s: seq<nat>, b: nat)
    ensures Times(s, b) > 0 <==> b in s
  {
    if s != [] {
      TimesIn(s[1..], b);
      assert s == [s[0]] + s[1..];
    }
  }

  /** A caller gives back no more references than it holds. */
  ghost predicate Releasable(c: Policy, p: Pool, blocks: seq<nat>) {
    |p.ref| == c.n && InRange(c, blocks) && forall b: nat :: b < c.n && b != c.nullId ==> Times(blocks, b) <= p.ref[b]
  }

  lemma {:induction false} DropCounts(ref: seq<int>, blocks: seq<nat>, b: nat)
    requires (forall i :: 0 <= i < |blocks| ==> blocks[i] < |ref|) && b < |ref|
    ensures Drop(ref, blocks)[b] == ref[b] - Times(blocks, b)
    decreases |blocks|
  {
    if blocks != [] {
      DropCounts(ref[blocks[0] := ref[blocks[0]] - 1], blocks[1..], b);
    }
  }

  /** A block is released exactly when the caller held all its references. */
  lemma {:induction false} ReleasedExactly(ref: seq<int>, blocks: seq<nat>, nullId: nat, b: nat)
    requires (forall i :: 0 <= i < |blocks| ==> blocks[i] < |ref|) && b < |ref|
    requires b != nullId ==> Times(blocks, b) <= ref[b]
    ensures Times(Released(ref, blocks, nullId), b) == if b != nullId && Times(blocks, b) > 0 && ref[b] == Times(blocks, b) then 1 else 0
    decreases |blocks|
  {
    if blocks != [] {
      var h := blocks[0];
      var rest := Released(ref[h := ref[h] - 1], blocks[1..], nullId);
      ReleasedExactly(ref[h := ref[h] - 1], blocks[1..], nullId, b);
      if ref[h] == 1 && h != nullId {
        assert ([h] + rest)[1..] == rest;
      } else {
        assert Released(ref, blocks, nullId) == rest;
      }
    }
  }

  lemma {:induction false} ReleasedInRange(ref: seq<int>, blocks: seq<nat>, nullId: nat)
    requires forall i :: 0 <= i < |blocks| ==> blocks[i] < |ref|
    ensures forall b :: b in Released(ref, blocks, nullId) ==> b < |ref| && b in blocks
    decreases |blocks|
  {
    if blocks != [] {
      ReleasedInRange(ref[blocks[0] := ref[blocks[0]] - 1], blocks[1..], nullId);
    }
  }

  lemma {:induction false} TwoCopies(s: seq<nat>, i: nat, j: nat)
    requires i < j < |s| && s[i] == s[j]
    ensures Times(s, s[i]) >= 2
  {
    if i > 0 {
      TwoCopies(s[1..], i - 1, j - 1);
    } else {
      assert s[1..][j - 1] == s[0];
      TimesIn(s[1..], s[0]);
    }
  }

  lemma OneCopyDistinct(s: seq<nat>)
    requires forall b :: b in s ==> Times(s, b) <= 1
    ensures Distinct(s)
  {
    forall i, j | 0 <= i < j < |s| ensures s[i] != s[j] {
      if s[i] == s[j] {
        TwoCopies(s, i, j);
        assert false;
      }
    }
  }

  lemma {:induction false} OfDistinct(c: Policy, keys: seq<seq<nat>>, s: seq<nat>, k: Rank)
    requires Distinct(s)
    ensures Distinct(Of(c, keys, s, k))
  {
    if s != [] {
      assert forall i :: 0 <= i < |s[1..]| ==> s[1..][i] == s[i + 1];
      OfDistinct(c, keys, s[1..], k);
      assert s[0] !in s[1..];
      OfMember(c, keys, s[1..], k, s[0]);
    }
  }

  lemma DistinctConcat(a: seq<nat>, b: seq<nat>)
    requires Distinct(a) && Distinct(b) && forall x :: x in a ==> x !in b
    ensures Distinct(a + b)
  {
    forall i, j | 0 <= i < j < |a + b| ensures (a + b)[i] != (a + b)[j] {
      if i < |a| && j >= |a| { assert (a + b)[i] in a && (a + b)[j] in b; }
    }
  }

  /** A queue is ordered when it is reusable blocks followed by ordinary ones. */
  lemma OrderedConcat(c: Policy, p: Pool, a: seq<nat>, b: seq<nat>, d: seq<nat>)
    requires p.queue == a + b + d && Ordered(c, p.(queue := b))
    requires forall x :: x in a ==> RankIn(c, p, x) != Ordinary
    requires forall x :: x in d ==> RankIn(c, p, x) == Ordinary
    ensures Ordered(c, p)
  {
    var q := p.(queue := b);
    forall i | 0 <= i < |a| ensures RankIn(c, p, p.queue[i]) != Ordinary {
      assert p.queue[i] == a[i];
    }
    forall i, j | 0 <= i < j < |p.queue| && RankIn(c, p, p.queue[i]) == Ordinary ensures RankIn(c, p, p.queue[j]) == Ordinary {
      if j >= |a| + |b| {
        assert p.queue[j] in d;
      } else if i < |a| {
        assert false;
      } else {
        assert p.queue[i] == q.queue[i - |a|] && p.queue[j] == q.queue[j - |a|];
      }
    }
  }

  lemma FreeParts(c: Policy, p: Pool, blocks: seq<nat>)
    requires PoolOk(c, p) && Releasable(c, p, blocks)
    ensures var out := Released(p.ref, blocks, c.nullId);
            Distinct(out) && (forall b :: b in out ==> b < c.n) && forall b :: b in out ==> b !in p.queue
  {
    var out: seq<nat> := Released(p.ref, blocks, c.nullId);
    ReleasedInRange(p.ref, blocks, c.nullId);
    forall b | b in out ensures Times(out, b) <= 1 && b !in p.queue {
      WasHeld(c, p, blocks, b);
    }
    OneCopyDistinct(out);
  }

  lemma WasHeld(c: Policy, p: Pool, blocks: seq<nat>, b: nat)
    requires PoolOk(c, p) && Releasable(c, p, blocks) && b < c.n && b in Released(p.ref, blocks, c.nullId)
    ensures Times(Released(p.ref, blocks, c.nullId), b) <= 1 && b !in p.queue
  {
    TimesIn(Released(p.ref, blocks, c.nullId), b);
    ReleasedExactly(p.ref, blocks, c.nullId, b);
  }

  lemma FreeMembers(c: Policy, p: Pool, blocks: seq<nat>, b: nat)
    requires PoolOk(c, p) && Releasable(c, p, blocks) && b < c.n
    ensures var q := Free(c, p, blocks);
            && (b in q.queue <==> q.ref[b] == 0 && b != c.nullId)
            && (b != c.nullId ==> q.ref[b] >= 0)
  {
    DropCounts(p.ref, blocks, b);
    ReleasedExactly(p.ref, blocks, c.nullId, b);
    var out: seq<nat> := Released(p.ref, blocks, c.nullId);
    TimesIn(out, b);
    TimesIn(blocks, b);
    RanksCover(c, p.keys, out, b);
  }

  lemma RanksCover(c: Policy, keys: seq<seq<nat>>, s: seq<nat>, b: nat)
    requires b < |keys|
    ensures b in s <==> b in Of(c, keys, s, First) || b in Of(c, keys, s, BeforeNormal) || b in Of(c, keys, s, Ordinary)
  {
    OfMember(c, keys, s, First, b);
    OfMember(c, keys, s, BeforeNormal, b);
    OfMember(c, keys, s, Ordinary, b);
  }

  lemma OfMembers(c: Policy, keys: seq<seq<nat>>, s: seq<nat>, k: Rank)
    ensures forall b :: b in Of(c, keys, s, k) ==> b in s && HasRank(c, keys, b, k)
  {
    forall b | b in Of(c, keys, s, k) ensures b in s && HasRank(c, keys, b, k) { OfMember(c, keys, s, k, b); }
  }

  lemma FreeDistinct(c: Policy, keys: seq<seq<nat>>, out: seq<nat>, queue: seq<nat>)
    requires Distinct(out) && Distinct(queue) && forall b :: b in out ==> b !in queue
    ensures Distinct(Of(c, keys, out, First) + Of(c, keys, out, BeforeNormal) + queue + Of(c, keys, out, Ordinary))
  {
    var f, l, o := Of(c, keys, out, First), Of(c, keys, out, BeforeNormal), Of(c, keys, out, Ordinary);
    OfDistinct(c, keys, out, First);
    OfDistinct(c, keys, out, BeforeNormal);
    OfDistinct(c, keys, out, Ordinary);
    OfMembers(c, keys, out, First);
    OfMembers(c, keys, out, BeforeNormal);
    OfMembers(c, keys, out, Ordinary);
    DistinctConcat(f, l);
    DistinctConcat(f + l, queue);
    DistinctConcat(f + l + queue, o);
  }

  lemma FreeOrdered(c: Policy, p: Pool, blocks: seq<nat>)
    requires |p.ref| == c.n && InRange(c, blocks) && Ordered(c, p)
    ensures Ordered(c, Free(c, p, blocks))
  {
    var q, out := Free(c, p, blocks), Released(p.ref, blocks, c.nullId);
    var a, d := Of(c, p.keys, out, First) + Of(c, p.keys, out, BeforeNormal), Of(c, p.keys, out, Ordinary);
    SameRanks(c, p, q.(queue := p.queue));
    OfMembers(c, p.keys, out, First);
    OfMembers(c, p.keys, out, BeforeNormal);
    OfMembers(c, p.keys, out, Ordinary);
    OrderedConcat(c, q, a, p.queue, d);
  }

  lemma SameRanks(c: Policy, p: Pool, q: Pool)
    requires p.keys == q.keys && p.queue == q.queue && Ordered(c, p)
    ensures Ordered(c, q)
  {
    assert forall b :: RankIn(c, p, b) == RankIn(c, q, b);
  }

  /** Freeing keeps the queue ordered and complete. */
  lemma FreeKeeps(c: Policy, p: Pool, blocks: seq<nat>)
    requires PoolOk(c, p) && Releasable(c, p, blocks)
    ensures PoolOk(c, Free(c, p, blocks))
  {
    var q, out := Free(c, p, blocks), Released(p.ref, blocks, c.nullId);
    FreeParts(c, p, blocks);
    FreeDistinct(c, p.keys, out, p.queue);
    FreeOrdered(c, p, blocks);
    FreeInRange(c, p, out);
    forall b: nat | b < c.n ensures (b in q.queue <==> q.ref[b] == 0 && b != c.nullId) && (b != c.nullId ==> q.ref[b] >= 0) {
      FreeMembers(c, p, blocks, b);
    }
  }

  lemma FreeInRange(c: Policy, p: Pool, out: seq<nat>)
    requires (forall b :: b in out ==> b < c.n) && InRange(c, p.queue)
    ensures InRange(c, Of(c, p.keys, out, First) + Of(c, p.keys, out, BeforeNormal) + p.queue + Of(c, p.keys, out, Ordinary))
  {
    var f, l, o := Of(c, p.keys, out, First), Of(c, p.keys, out, BeforeNormal), Of(c, p.keys, out, Ordinary);
    var all := f + l + p.queue + o;
    OfMembers(c, p.keys, out, First);
    OfMembers(c, p.keys, out, BeforeNormal);
    OfMembers(c, p.keys, out, Ordinary);
    forall i | 0 <= i < |all| ensures all[i] < c.n { assert all[i] in f || all[i] in l || all[i] in p.queue || all[i] in o; }
  }

  // ----- allocation, hits, registration -----

  /** Callers never ask for more than is free. */
  lemma AllocateKeeps(c: Policy, p: Pool, k: nat)
    requires PoolOk(c, p) && k <= |p.queue|
    ensures PoolOk(c, Allocate(p, k))
  {
    var q, taken := Allocate(p, k), p.queue[..k];
    forall b: nat | b < c.n ensures (b in q.queue <==> q.ref[b] == 0 && b != c.nullId) && (b != c.nullId ==> q.ref[b] >= 0) {
      SplitMember(p.queue, k, b);
    }
    forall i, j | 0 <= i < j < |q.queue| && RankIn(c, q, q.queue[i]) == Ordinary ensures RankIn(c, q, q.queue[j]) == Ordinary {
      SplitMember(p.queue, k, q.queue[i]);
      SplitMember(p.queue, k, q.queue[j]);
      assert q.queue[i] == p.queue[i + k] && q.queue[j] == p.queue[j + k];
    }
  }

  lemma SplitMember(s: seq<nat>, k: nat, b: nat)
    requires k <= |s| && Distinct(s)
    ensures b in s <==> b in s[..k] || b in s[k..]
    ensures !(b in s[..k] && b in s[k..])
  {
    assert s == s[..k] + s[k..];
  }

  /** Main theorem: allocation evicts an ordinary cached block only when it also takes
      every unhashed and every low-priority free block. */
  lemma OrdinaryEvictedLast(c: Policy, p: Pool, k: nat, b: nat, x: nat)
    requires PoolOk(c, p) && k <= |p.queue|
    requires b in p.queue[..k] && RankIn(c, p, b) == Ordinary
    requires x in p.queue && RankIn(c, p, x) != Ordinary
    ensures x in p.queue[..k]
  {
    var i :| 0 <= i < k && p.queue[i] == b;
    var j :| 0 <= j < |p.queue| && p.queue[j] == x;
    if j >= k {
      assert false;
    }
    assert p.queue[..k][j] == x;
  }

  lemma {:induction false} RemoveIsFilter(s: seq<nat>, b: nat)
    requires Distinct(s)
    ensures Distinct(Remove(s, b)) && forall x :: x in Remove(s, b) <==> x in s && x != b
  {
    if s != [] {
      assert forall i :: 0 <= i < |s[1..]| ==> s[1..][i] == s[i + 1];
      assert s[0] !in s[1..];
      RemoveIsFilter(s[1..], b);
    }
  }

  /** Where a position of the shortened queue lies in the original. */
  lemma {:induction false} RemoveAt(s: seq<nat>, b: nat, i: nat) returns (at: nat)
    requires i < |Remove(s, b)|
    ensures i <= at <= i + 1 && at < |s| && Remove(s, b)[i] == s[at]
    ensures at == i + 1 <==> b in s[..i + 1]
  {
    if s[0] == b {
      at := i + 1;
    } else if i == 0 {
      at := 0;
      assert s[..1] == [s[0]];
    } else {
      at := RemoveAt(s[1..], b, i - 1);
      at := at + 1;
      assert s[..i + 1] == [s[0]] + s[1..][..i];
    }
  }

  lemma TouchKeeps(c: Policy, p: Pool, b: nat)
    requires PoolOk(c, p) && b < c.n
    ensures PoolOk(c, Touch(c, p, b))
  {
    var q := Touch(c, p, b);
    RemoveIsFilter(p.queue, b);
    forall i | 0 <= i < |q.queue| ensures q.queue[i] < c.n { assert q.queue[i] in p.queue; }
    forall i, j | 0 <= i < j < |q.queue| && RankIn(c, q, q.queue[i]) == Ordinary ensures RankIn(c, q, q.queue[j]) == Ordinary {
      if q.queue != p.queue {
        RemoveKeepsPlace(p.queue, b, i, j);
      }
    }
  }

  lemma RemoveKeepsPlace(s: seq<nat>, b: nat, i: nat, j: nat)
    requires i < j < |Remove(s, b)|
    ensures exists x, y :: 0 <= x < y < |s| && s[x] == Remove(s, b)[i] && s[y] == Remove(s, b)[j]
  {
    var x := RemoveAt(s, b, i);
    var y := RemoveAt(s, b, j);
    if x == i + 1 {
      assert b in s[..j + 1];
    }
  }

  /** Registering a key re-ranks a block, which is harmless while it is in use. */
  lemma RegisterKeeps(c: Policy, p: Pool, b: nat, group: nat)
    requires PoolOk(c, p) && b < c.n && p.ref[b] > 0
    ensures PoolOk(c, Register(c, p, b, group))
  {
    assert b !in p.queue;
  }

  // ----- every reachable queue -----

  datatype Event =
    | FreeBlocks(blocks: seq<nat>)
    | AllocateBlocks(k: nat)
    | TouchBlock(b: nat)
    | RegisterKey(b: nat, group: nat)

  ghost predicate Legal(c: Policy, p: Pool, e: Event) {
    match e
    case FreeBlocks(blocks) => Releasable(c, p, blocks)
    case AllocateBlocks(k) => k <= |p.queue|
    case TouchBlock(b) => b < c.n
    case RegisterKey(b, _) => b < c.n && b < |p.ref| && p.ref[b] > 0
  }

  ghost function Step(c: Policy, p: Pool, e: Event): (q: Pool)
    requires PoolOk(c, p) && Legal(c, p, e)
    ensures PoolOk(c, q)
  {
    match e
    case FreeBlocks(blocks) => FreeKeeps(c, p, blocks); Free(c, p, blocks)
    case AllocateBlocks(k) => AllocateKeeps(c, p, k); Allocate(p, k)
    case TouchBlock(b) => TouchKeeps(c, p, b); Touch(c, p, b)
    case RegisterKey(b, g) => RegisterKeeps(c, p, b, g); Register(c, p, b, g)
  }

  /** Every block free and unhashed. */
  ghost predicate Initial(c: Policy, p: Pool) {
    && |p.ref| == |p.keys| == c.n && c.nullId < c.n && InRange(c, p.queue) && Distinct(p.queue)
    && (forall b :: 0 <= b < c.n ==> p.keys[b] == [] && (b != c.nullId ==> p.ref[b] == 0))
    && (forall b: nat :: b < c.n ==> (b in p.queue <==> b != c.nullId))
  }

  ghost predicate Reaches(c: Policy, p: Pool, events: seq<Event>, q: Pool)
    requires PoolOk(c, p)
    decreases |events|
  {
    if events == [] then p == q
    else Legal(c, p, events[0]) && Reaches(c, Step(c, p, events[0]), events[1..], q)
  }

  lemma {:induction false} ReachableOk(c: Policy, p: Pool, events: seq<Event>, q: Pool)
    requires PoolOk(c, p) && Reaches(c, p, events, q)
    ensures PoolOk(c, q)
    decreases |events|
  {
    if events != [] {
      ReachableOk(c, Step(c, p, events[0]), events[1..], q);
    }
  }

  /** Main theorem: in every reachable queue no ordinary cached block precedes an
      unhashed or low-priority one. */
  lemma ReachableOrdered(c: Policy, p: Pool, events: seq<Event>, q: Pool, i: nat, j: nat)
    requires Initial(c, p) && PoolOk(c, p) && Reaches(c, p, events, q)
    requires i < j < |q.queue| && RankIn(c, q, q.queue[i]) == Ordinary
    ensures RankIn(c, q, q.queue[j]) == Ordinary
  {
    ReachableOk(c, p, events, q);
  }

  lemma InitialOk(c: Policy, p: Pool)
    requires Initial(c, p)
    ensures PoolOk(c, p)
  {
    assert forall b :: RankIn(c, p, b) == First;
  }

  // ----- first in, first out -----

  /** The ordinary cached blocks of the queue, in queue order. */
  function Kept(c: Policy, p: Pool): seq<nat> { Of(c, p.keys, p.queue, Ordinary) }

  lemma {:induction false} OfConcat(c: Policy, keys: seq<seq<nat>>, a: seq<nat>, b: seq<nat>, k: Rank)
    ensures Of(c, keys, a + b, k) == Of(c, keys, a, k) + Of(c, keys, b, k)
  {
    if a == [] {
      assert a + b == b;
    } else {
      assert (a + b)[0] == a[0] && (a + b)[1..] == a[1..] + b;
      OfConcat(c, keys, a[1..], b, k);
    }
  }

  lemma {:induction false} OfNone(c: Policy, keys: seq<seq<nat>>, s: seq<nat>, k: Rank)
    requires forall i :: 0 <= i < |s| ==> !HasRank(c, keys, s[i], k)
    ensures Of(c, keys, s, k) == []
  {
    if s != [] {
      OfNone(c, keys, s[1..], k);
    }
  }

  lemma {:induction false} OfTwice(c: Policy, keys: seq<seq<nat>>, s: seq<nat>, k: Rank, k2: Rank)
    ensures Of(c, keys, Of(c, keys, s, k), k2) == if k == k2 then Of(c, keys, s, k) else []
  {
    if s != [] {
      OfTwice(c, keys, s[1..], k, k2);
      assert ([s[0]] + Of(c, keys, s[1..], k))[1..] == Of(c, keys, s[1..], k);
    }
  }

  lemma {:induction false} OfSameKeys(c: Policy, keys: seq<seq<nat>>, keys2: seq<seq<nat>>, s: seq<nat>, k: Rank)
    requires |keys| == |keys2| && forall b :: b in s && b < |keys| ==> keys[b] == keys2[b]
    ensures Of(c, keys, s, k) == Of(c, keys2, s, k)
  {
    if s != [] {
      OfSameKeys(c, keys, keys2, s[1..], k);
    }
  }

  /** Freed ordinary blocks join at the end, in the order they were freed. */
  lemma FreedJoinAtEnd(c: Policy, p: Pool, blocks: seq<nat>)
    requires |p.ref| == c.n && InRange(c, blocks)
    ensures Kept(c, Free(c, p, blocks)) == Kept(c, p) + Of(c, p.keys, Released(p.ref, blocks, c.nullId), Ordinary)
  {
    KeptOfParts(c, p.keys, Released(p.ref, blocks, c.nullId), p.queue);
  }

  lemma OfFour(c: Policy, keys: seq<seq<nat>>, f: seq<nat>, l: seq<nat>, q: seq<nat>, o: seq<nat>, k: Rank)
    ensures Of(c, keys, f + l + q + o, k) == Of(c, keys, f, k) + Of(c, keys, l, k) + Of(c, keys, q, k) + Of(c, keys, o, k)
  {
    OfConcat(c, keys, f + l + q, o, k);
    OfConcat(c, keys, f + l, q, k);
    OfConcat(c, keys, f, l, k);
  }

  lemma KeptOfParts(c: Policy, keys: seq<seq<nat>>, out: seq<nat>, queue: seq<nat>)
    ensures Of(c, keys, Of(c, keys, out, First) + Of(c, keys, out, BeforeNormal) + queue + Of(c, keys, out, Ordinary), Ordinary)
            == Of(c, keys, queue, Ordinary) + Of(c, keys, out, Ordinary)
  {
    var f, l, o := Of(c, keys, out, First), Of(c, keys, out, BeforeNormal), Of(c, keys, out, Ordinary);
    OfFour(c, keys, f, l, queue, o, Ordinary);
    OfTwice(c, keys, out, First, Ordinary);
    OfTwice(c, keys, out, BeforeNormal, Ordinary);
    OfTwice(c, keys, out, Ordinary, Ordinary);
  }

  /** Allocation takes ordinary blocks from the front: the ones freed longest ago. */
  lemma AllocationTakesOldest(c: Policy, p: Pool, k: nat)
    requires PoolOk(c, p) && k <= |p.queue|
    ensures Kept(c, p) == Of(c, p.keys, p.queue[..k], Ordinary) + Kept(c, Allocate(p, k))
  {
    assert p.queue == p.queue[..k] + p.queue[k..];
    OfConcat(c, p.keys, p.queue[..k], p.queue[k..], Ordinary);
    forall b | b in p.queue[k..] && b < |p.keys| ensures p.keys[b] == Allocate(p, k).keys[b] {
      SplitMember(p.queue, k, b);
    }
    OfSameKeys(c, p.keys, Allocate(p, k).keys, p.queue[k..], Ordinary);
  }

  lemma {:induction false} OfRemove(c: Policy, keys: seq<seq<nat>>, s: seq<nat>, b: nat, k: Rank)
    ensures Of(c, keys, Remove(s, b), k) == Remove(Of(c, keys, s, k), b)
  {
    if s != [] {
      if s[0] != b {
        OfRemove(c, keys, s[1..], b, k);
        assert ([s[0]] + Remove(s[1..], b))[1..] == Remove(s[1..], b);
        assert ([s[0]] + Of(c, keys, s[1..], k))[1..] == Of(c, keys, s[1..], k);
      } else if HasRank(c, keys, b, k) {
        assert ([b] + Of(c, keys, s[1..], k))[1..] == Of(c, keys, s[1..], k);
      } else {
        OfMember(c, keys, s, k, b);
      }
    }
  }

  /** A hit takes its block out and leaves the others in order. */
  lemma HitLeavesOrder(c: Policy, p: Pool, b: nat)
    requires PoolOk(c, p) && b < c.n && p.ref[b] == 0 && b != c.nullId
    ensures Kept(c, Touch(c, p, b)) == Remove(Kept(c, p), b)
  {
    OfRemove(c, p.keys, p.queue, b, Ordinary);
  }

  /** `x` comes before `y` in the queue. */
  predicate Ahead(s: seq<nat>, x: nat, y: nat) { exists i, j :: 0 <= i < j < |s| && s[i] == x && s[j] == y }

  /** `x` is free, and `y` is in use or queued behind it; both are ordinary cached blocks. */
  ghost predicate WaitsAhead(c: Policy, p: Pool, x: nat, y: nat) {
    && x != y && x in p.queue && RankIn(c, p, x) == Ordinary && RankIn(c, p, y) == Ordinary
    && (y in p.queue ==> Ahead(p.queue, x, y))
  }

  predicate Takes(p: Pool, e: Event, b: nat) { e.AllocateBlocks? && e.k <= |p.queue| && b in p.queue[..e.k] }

  /** Up to the allocation that takes `x`, none takes `y`, and that one pops `x` first. */
  ghost predicate NotOvertaken(c: Policy, p: Pool, events: seq<Event>, q: Pool, x: nat, y: nat)
    requires PoolOk(c, p) && Reaches(c, p, events, q)
    decreases |events|
  {
    events == []
    || (&& (Takes(p, events[0], y) ==> Takes(p, events[0], x) && Ahead(p.queue, x, y))
        && (Takes(p, events[0], x) || NotOvertaken(c, Step(c, p, events[0]), events[1..], q, x, y)))
  }

  predicate NeverHit(events: seq<Event>, b: nat) { forall i :: 0 <= i < |events| ==> events[i] != TouchBlock(b) }

  lemma LaterNeverHit(events: seq<Event>, b: nat)
    requires NeverHit(events, b) && events != []
    ensures NeverHit(events[1..], b)
  {
    forall i | 0 <= i < |events[1..]| ensures events[1..][i] != TouchBlock(b) { assert events[1..][i] == events[i + 1]; }
  }

  lemma {:induction false} RemoveSplit(s: seq<nat>, b: nat) returns (m: nat)
    requires b in s
    ensures m < |s| && s[m] == b && Remove(s, b) == s[..m] + s[m + 1..]
  {
    if s[0] == b {
      m := 0;
    } else {
      m := RemoveSplit(s[1..], b);
      assert s[1..][..m] == s[1..m + 1] && s[1..][m + 1..] == s[m + 2..];
      m := m + 1;
    }
  }

  lemma GapClosed(s: seq<nat>, m: nat, i: nat)
    requires m < |s| && i < |s| && i != m
    ensures var r := s[..m] + s[m + 1..]; var k := if i < m then i else i - 1;
            k < |r| && r[k] == s[i]
  {
  }

  lemma RemoveKeepsAhead(s: seq<nat>, b: nat, x: nat, y: nat)
    requires Ahead(s, x, y) && b != x && b != y
    ensures Ahead(Remove(s, b), x, y)
  {
    if b in s {
      var m := RemoveSplit(s, b);
      var i, j :| 0 <= i < j < |s| && s[i] == x && s[j] == y;
      GapClosed(s, m, i);
      GapClosed(s, m, j);
    }
  }

  lemma AheadInside(a: seq<nat>, s: seq<nat>, b: seq<nat>, x: nat, y: nat)
    requires Ahead(s, x, y) || (x in s && y in b)
    ensures x in a + s + b && Ahead(a + s + b, x, y)
  {
    var all := a + s + b;
    if Ahead(s, x, y) {
      var i, j :| 0 <= i < j < |s| && s[i] == x && s[j] == y;
      assert all[|a| + i] == x && all[|a| + j] == y;
    } else {
      var i, j :| 0 <= i < |s| && s[i] == x && 0 <= j < |b| && b[j] == y;
      assert all[|a| + i] == x && all[|a| + |s| + j] == y;
    }
  }

  /** A block freed now waits behind every ordinary block already free. */
  lemma FreeWaitsAhead(c: Policy, p: Pool, blocks: seq<nat>, x: nat, y: nat)
    requires PoolOk(c, p) && Releasable(c, p, blocks) && WaitsAhead(c, p, x, y)
    ensures WaitsAhead(c, Free(c, p, blocks), x, y)
  {
    var out: seq<nat> := Released(p.ref, blocks, c.nullId);
    var f, l, o := Of(c, p.keys, out, First), Of(c, p.keys, out, BeforeNormal), Of(c, p.keys, out, Ordinary);
    var q := Free(c, p, blocks);
    OfMember(c, p.keys, out, First, y);
    OfMember(c, p.keys, out, BeforeNormal, y);
    assert q.queue == (f + l) + p.queue + o;
    if y in q.queue {
      assert y in p.queue || y in o;
      AheadInside(f + l, p.queue, o, x, y);
    } else {
      assert x in q.queue;
    }
  }

  lemma AllocateWaitsAhead(c: Policy, p: Pool, k: nat, x: nat, y: nat)
    requires PoolOk(c, p) && k <= |p.queue| && WaitsAhead(c, p, x, y)
    ensures y in p.queue[..k] ==> x in p.queue[..k] && Ahead(p.queue, x, y)
    ensures x !in p.queue[..k] ==> WaitsAhead(c, Allocate(p, k), x, y)
  {
    var q := Allocate(p, k);
    if y in p.queue {
      var i, j :| 0 <= i < j < |p.queue| && p.queue[i] == x && p.queue[j] == y;
      if i < k {
        assert p.queue[..k][i] == x;
      } else {
        assert q.queue[i - k] == x && q.queue[j - k] == y && y !in p.queue[..k];
      }
    }
    if x !in p.queue[..k] {
      SplitMember(p.queue, k, x);
      assert forall b :: b in q.queue ==> b in p.queue;
    }
  }

  lemma TouchWaitsAhead(c: Policy, p: Pool, b: nat, x: nat, y: nat)
    requires PoolOk(c, p) && b < c.n && b != x && WaitsAhead(c, p, x, y)
    ensures WaitsAhead(c, Touch(c, p, b), x, y)
  {
    RemoveIsFilter(p.queue, b);
    if y in p.queue && b != y {
      RemoveKeepsAhead(p.queue, b, x, y);
    }
  }

  lemma RegisterWaitsAhead(c: Policy, p: Pool, b: nat, group: nat, x: nat, y: nat)
    requires PoolOk(c, p) && b < c.n && p.ref[b] > 0 && WaitsAhead(c, p, x, y)
    ensures WaitsAhead(c, Register(c, p, b, group), x, y)
  {
    OneTargetKeyProtects(c, p, b, group);
  }

  /** Unless `x` is hit or taken, `y` stays behind it, in use or not. */
  lemma StepWaitsAhead(c: Policy, p: Pool, e: Event, x: nat, y: nat)
    requires PoolOk(c, p) && Legal(c, p, e) && WaitsAhead(c, p, x, y) && e != TouchBlock(x)
    ensures Takes(p, e, y) ==> Takes(p, e, x) && Ahead(p.queue, x, y)
    ensures Takes(p, e, x) || WaitsAhead(c, Step(c, p, e), x, y)
  {
    match e
    case FreeBlocks(blocks) => FreeWaitsAhead(c, p, blocks, x, y);
    case AllocateBlocks(k) => AllocateWaitsAhead(c, p, k, x, y);
    case TouchBlock(b) => TouchWaitsAhead(c, p, b, x, y);
    case RegisterKey(b, group) => RegisterWaitsAhead(c, p, b, group, x, y);
  }

  /** Main theorem: ordinary cached blocks leave in the order they became free. Through
      any run in which `x` is not hit, a block that was behind it or still in use is not
      allocated before it, whether hit and freed again or not. */
  lemma {:induction false} FirstFreedFirstTaken(c: Policy, p: Pool, events: seq<Event>, q: Pool, x: nat, y: nat)
    requires PoolOk(c, p) && Reaches(c, p, events, q) && WaitsAhead(c, p, x, y) && NeverHit(events, x)
    ensures NotOvertaken(c, p, events, q, x, y)
    decreases |events|
  {
    if events != [] {
      var e := events[0];
      StepWaitsAhead(c, p, e, x, y);
      if !Takes(p, e, x) {
        LaterNeverHit(events, x);
        FirstFreedFirstTaken(c, Step(c, p, e), events[1..], q, x, y);
      }
    }
  }

  // ----- freeing a request, manager by manager -----

  /** The coordinator frees one manager after the other. */
  function FreeManagers(c: Policy, p: Pool, calls: seq<seq<nat>>): Pool
    requires |p.ref| == c.n && forall i :: 0 <= i < |calls| ==> InRange(c, calls[i])
    decreases |calls|
  {
    if calls == [] then p else FreeManagers(c, Free(c, p, calls[0]), calls[1..])
  }

  /** Nothing low-priority is released by these calls: target managers register their
      blocks under their own, ordinary, group. */
  predicate TargetCalls(c: Policy, p: Pool, calls: seq<seq<nat>>) {
    forall i :: 0 <= i < |calls| ==> InRange(c, calls[i]) && forall b :: b in calls[i] ==> RankIn(c, p, b) != BeforeNormal
  }

  /** A target manager's call puts unhashed blocks in front and cached ones at the end. */
  lemma TargetCall(c: Policy, p: Pool, blocks: seq<nat>)
    requires |p.ref| == |p.keys| == c.n && InRange(c, blocks) && forall b :: b in blocks ==> RankIn(c, p, b) != BeforeNormal
    ensures var out := Released(p.ref, blocks, c.nullId);
            && Free(c, p, blocks).queue == Of(c, p.keys, out, First) + p.queue + Of(c, p.keys, out, Ordinary)
            && (forall b :: b in Of(c, p.keys, out, First) ==> RankIn(c, p, b) == First)
            && (forall b :: b in Of(c, p.keys, out, Ordinary) ==> RankIn(c, p, b) == Ordinary)
  {
    var out: seq<nat> := Released(p.ref, blocks, c.nullId);
    ReleasedInRange(p.ref, blocks, c.nullId);
    forall i | 0 <= i < |out| ensures !HasRank(c, p.keys, out[i], BeforeNormal) { assert out[i] in out; }
    OfNone(c, p.keys, out, BeforeNormal);
    OfMembers(c, p.keys, out, First);
    OfMembers(c, p.keys, out, Ordinary);
  }

  /** Main theorem: with the low-priority managers freed first, every unhashed block a
      target manager releases ends up ahead of every low-priority cached block: the
      target calls only put unhashed blocks in front and ordinary ones behind. */
  lemma {:induction false} TargetUnhashedGoFirst(c: Policy, p: Pool, calls: seq<seq<nat>>) returns (front: seq<nat>, back: seq<nat>)
    requires |p.ref| == |p.keys| == c.n && TargetCalls(c, p, calls)
    ensures FreeManagers(c, p, calls).keys == p.keys && FreeManagers(c, p, calls).queue == front + p.queue + back
    ensures forall b :: b in front ==> RankIn(c, p, b) == First
    ensures forall b :: b in back ==> RankIn(c, p, b) == Ordinary
    decreases |calls|
  {
    if calls == [] {
      front, back := [], [];
    } else {
      var out := Released(p.ref, calls[0], c.nullId);
      var q := Free(c, p, calls[0]);
      var f, o := Of(c, p.keys, out, First), Of(c, p.keys, out, Ordinary);
      TargetCall(c, p, calls[0]);
      LaterTargetCalls(c, p, q, calls);
      front, back := TargetUnhashedGoFirst(c, q, calls[1..]);
      assert front + (f + p.queue + o) + back == (front + f) + p.queue + (o + back);
      front, back := front + f, o + back;
    }
  }

  lemma LaterTargetCalls(c: Policy, p: Pool, q: Pool, calls: seq<seq<nat>>)
    requires TargetCalls(c, p, calls) && calls != [] && q.keys == p.keys
    ensures TargetCalls(c, q, calls[1..])
  {
    forall i | 0 <= i < |calls[1..]| ensures InRange(c, calls[1..][i]) && forall b :: b in calls[1..][i] ==> RankIn(c, q, b) != BeforeNormal {
      assert calls[1..][i] == calls[i + 1];
    }
  }

  /** Freed the other way round, a low-priority block ends up ahead of an unhashed one. */
  lemma OrderOfManagersMatters()
    ensures var c := Policy(3, 2, true, {7}); var p := Pool([1, 1, 0], [[], [7], []], []);
            && RankIn(c, p, 0) == First && RankIn(c, p, 1) == BeforeNormal
            && FreeManagers(c, p, [[1], [0]]).queue == [0, 1]
            && FreeManagers(c, p, [[0], [1]]).queue == [1, 0]
  {
    var c, p := Policy(3, 2, true, {7}), Pool([1, 1, 0], [[], [7], []], []);
    FreeTwo(c, p, 1, 0);
    FreeTwo(c, p, 0, 1);
  }

  lemma FreeTwo(c: Policy, p: Pool, a: nat, b: nat)
    requires |p.ref| == |p.keys| == c.n && a < c.n && b < c.n && a != b && a != c.nullId && b != c.nullId
    requires p.ref[a] == p.ref[b] == 1 && p.queue == [] && RankIn(c, p, a) != Ordinary && RankIn(c, p, b) != Ordinary
    ensures FreeManagers(c, p, [[a], [b]]).queue == [b, a]
  {
    FreeOne(c, p, a);
    FreeOne(c, Free(c, p, [a]), b);
    var q := Free(c, p, [a]);
    var r := Free(c, q, [b]);
    assert FreeManagers(c, r, []) == r;
    assert [[b]][1..] == [] && FreeManagers(c, q, [[b]]) == r;
    assert [[a], [b]][1..] == [[b]];
    assert FreeManagers(c, p, [[a], [b]]) == r;
    assert r.queue == [b] + ([a] + []);
  }

  lemma ReleaseOne(ref: seq<int>, b: nat, nullId: nat)
    requires b < |ref| && b != nullId && ref[b] == 1
    ensures Released(ref, [b], nullId) == [b] && Drop(ref, [b]) == ref[b := 0]
  {
    assert [b][1..] == [];
    assert Released(ref[b := 0], [], nullId) == [] && Drop(ref[b := 0], []) == ref[b := 0];
  }

  lemma OfOne(c: Policy, keys: seq<seq<nat>>, b: nat, k: Rank)
    ensures Of(c, keys, [b], k) == if HasRank(c, keys, b, k) then [b] else []
  {
    assert [b][1..] == [] && Of(c, keys, [], k) == [];
  }

  lemma FreeOne(c: Policy, p: Pool, b: nat)
    requires |p.ref| == |p.keys| == c.n && b < c.n && b != c.nullId && p.ref[b] == 1
    ensures Free(c, p, [b]) == Pool(p.ref[b := 0], p.keys, if RankIn(c, p, b) == Ordinary then p.queue + [b] else [b] + p.queue)
  {
    ReleaseOne(p.ref, b, c.nullId);
    OfOne(c, p.keys, b, First);
    OfOne(c, p.keys, b, BeforeNormal);
    OfOne(c, p.keys, b, Ordinary);
    assert [] + [] + p.queue + [b] == p.queue + [b];
    assert [b] + [] + p.queue + [] == [b] + p.queue == [] + [b] + p.queue + [];
  }

  // ----- the pool object -----

  class BlockPool {
    const c: Policy
    const ref: array<int>
    const keys: array<seq<nat>>
    var queue: seq<nat>

    ghost function Abs(): Pool
      reads this, ref, keys
    {
      Pool(ref[..], keys[..], queue)
    }

    ghost predicate Valid()
      reads this, ref, keys
    {
      ref as object != keys as object && PoolOk(c, Abs())
    }

    constructor (c: Policy)
      requires c.nullId < c.n
      ensures Valid() && this.c == c && Initial(c, Abs()) && fresh(ref) && fresh(keys)
    {
      this.c := c;
      ref := new int[c.n](_ => 0);
      keys := new seq<nat>[c.n](_ => []);
      queue := seq(c.nullId, i => i) + seq(c.n - c.nullId - 1, i requires 0 <= i => c.nullId + 1 + i);
      new;
      forall b: nat | b < c.n ensures b in queue <==> b != c.nullId {
        if b < c.nullId { assert queue[b] == b; } else if b > c.nullId { assert queue[b - 1] == b; }
      }
      InitialOk(c, Abs());
    }

    /** `BlockPool.free_blocks`. */
    method FreeBlocks(blocks: seq<nat>)
      requires Valid() && Releasable(c, Abs(), blocks)
      modifies this, ref
      ensures Valid() && Abs() == Free(c, old(Abs()), blocks)
    {
      FreeKeeps(c, Abs(), blocks);
      Requeue(blocks);
    }

    /** Low-priority blocks go behind the unhashed ones and ahead of the queue. */
    method Requeue(blocks: seq<nat>)
      requires InRange(c, blocks) && ref.Length == keys.Length == c.n && ref as object != keys as object
      modifies this, ref
      ensures Abs() == Free(c, old(Abs()), blocks)
    {
      var first, before, last := Partition(blocks);
      queue := before + queue;
      queue := first + queue;
      queue := queue + last;
      assert queue == first + before + old(queue) + last;
    }

    /** Drop the references and sort the released blocks by rank. */
    method Partition(blocks: seq<nat>) returns (first: seq<nat>, before: seq<nat>, last: seq<nat>)
      requires InRange(c, blocks) && ref.Length == keys.Length == c.n && ref as object != keys as object
      modifies ref
      ensures ref[..] == Drop(old(ref[..]), blocks)
      ensures Sifted(c, keys[..], Released(old(ref[..]), blocks, c.nullId), first, before, last)
    {
      first, before, last := [], [], [];
      ghost var ref0 := ref[..];
      ghost var out: seq<nat> := [];
      var i := 0;
      while i < |blocks|
        invariant 0 <= i <= |blocks|
        invariant Partway(ref0, ref[..], blocks, i, c.nullId, out)
        invariant Sifted(c, keys[..], out, first, before, last)
      {
        PartwayStep(ref0, ref[..], blocks, i, c.nullId, out);
        var free := DropOne(blocks[i]);
        if free {
          first, before, last := Place(blocks[i], first, before, last, out);
          out := out + [blocks[i]];
        }
        i := i + 1;
      }
      PartwayEnd(ref0, ref[..], blocks, c.nullId, out);
    }

    method Place(b: nat, f: seq<nat>, m: seq<nat>, l: seq<nat>, ghost out: seq<nat>) returns (first: seq<nat>, before: seq<nat>, last: seq<nat>)
      requires b < keys.Length && Sifted(c, keys[..], out, f, m, l)
      ensures Sifted(c, keys[..], out + [b], first, before, last)
    {
      first, before, last := f, m, l;
      SiftOne(c, keys[..], out, b, f, m, l);
      match RankOf(c, keys[b]) {
        case First => first := first + [b];
        case BeforeNormal => before := before + [b];
        case Ordinary => last := last + [b];
      }
    }

    method DropOne(b: nat) returns (free: bool)
      requires b < ref.Length && ref as object != keys as object
      modifies ref
      ensures ref[..] == old(ref[..])[b := old(ref[b]) - 1]
      ensures free == (old(ref[b]) == 1 && b != c.nullId)
    {
      ref[b] := ref[b] - 1;
      free := ref[b] == 0 && b != c.nullId;
    }
  }

  /** After `i` blocks: what was released so far and what is still to come. */
  ghost predicate Partway(ref0: seq<int>, ref: seq<int>, blocks: seq<nat>, i: nat, nullId: nat, out: seq<nat>) {
    && i <= |blocks| && |ref| == |ref0| && (forall k :: 0 <= k < |blocks| ==> blocks[k] < |ref|)
    && Drop(ref, blocks[i..]) == Drop(ref0, blocks)
    && out + Released(ref, blocks[i..], nullId) == Released(ref0, blocks, nullId)
  }

  lemma PartwayStep(ref0: seq<int>, ref: seq<int>, blocks: seq<nat>, i: nat, nullId: nat, out: seq<nat>)
    requires Partway(ref0, ref, blocks, i, nullId, out) && i < |blocks|
    ensures var b := blocks[i];
            Partway(ref0, ref[b := ref[b] - 1], blocks, i + 1, nullId, if ref[b] == 1 && b != nullId then out + [b] else out)
  {
    var b := blocks[i];
    UnfoldHead(ref, blocks, i, nullId);
    var rest := Released(ref[b := ref[b] - 1], blocks[i + 1..], nullId);
    assert out + ([b] + rest) == (out + [b]) + rest && out + ([] + rest) == out + rest;
  }

  lemma PartwayEnd(ref0: seq<int>, ref: seq<int>, blocks: seq<nat>, nullId: nat, out: seq<nat>)
    requires Partway(ref0, ref, blocks, |blocks|, nullId, out)
    ensures ref == Drop(ref0, blocks) && out == Released(ref0, blocks, nullId)
  {
    assert blocks[|blocks|..] == [] && out + [] == out;
  }

  lemma UnfoldHead(ref: seq<int>, blocks: seq<nat>, i: nat, nullId: nat)
    requires i < |blocks| && forall k :: 0 <= k < |blocks| ==> blocks[k] < |ref|
    ensures var b := blocks[i]; var ref2 := ref[b := ref[b] - 1];
            && Drop(ref, blocks[i..]) == Drop(ref2, blocks[i + 1..])
            && Released(ref, blocks[i..], nullId) == (if ref[b] == 1 && b != nullId then [b] else []) + Released(ref2, blocks[i + 1..], nullId)
  {
    assert blocks[i..][0] == blocks[i] && blocks[i..][1..] == blocks[i + 1..];
  }

  /** The three lists the loop builds, for the blocks released so far. */
  ghost predicate Sifted(c: Policy, keys: seq<seq<nat>>, out: seq<nat>, first: seq<nat>, before: seq<nat>, last: seq<nat>) {
    first == Of(c, keys, out, First) && before == Of(c, keys, out, BeforeNormal) && last == Of(c, keys, out, Ordinary)
  }

  lemma SiftOne(c: Policy, keys: seq<seq<nat>>, out: seq<nat>, b: nat, first: seq<nat>, before: seq<nat>, last: seq<nat>)
    requires Sifted(c, keys, out, first, before, last) && b < |keys|
    ensures match RankOf(c, keys[b])
            case First => Sifted(c, keys, out + [b], first + [b], before, last)
            case BeforeNormal => Sifted(c, keys, out + [b], first, before + [b], last)
            case Ordinary => Sifted(c, keys, out + [b], first, before, last + [b])
  {
    forall k: Rank ensures Of(c, keys, out + [b], k) == Of(c, keys, out, k) + (if RankOf(c, keys[b]) == k then [b] else []) {
      OfConcat(c, keys, out, [b], k);
      assert [b][1..] == [] && Of(c, keys, [], k) == [];
    }
  }
}
