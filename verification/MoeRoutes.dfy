/** Routed-expert bookkeeping of overlay/exl3.py: routes, their local experts, and sums
    of contributions. One hidden coordinate is followed; the tables and loops do not
    depend on it, so every coordinate obeys the same equations. */
module MoeRoutes {
  import opened Common
  import Arith

  /** One (token, slot) pair: its weight, raw expert id and local expert (`n` = none). */
  datatype Route = Route(tok: nat, wt: real, raw: int, loc: nat)

  /** The value an expert computes for a token, in the followed coordinate. */
  type Expert = (nat, nat) -> real

  function Term(y: Expert, r: Route, e: nat, t: nat): real { if r.tok == t then r.wt * y(e, t) else 0.0 }

  /** The naive sum: contributions to token `t` of the selected routes. */
  function SumIf(y: Expert, rs: seq<Route>, sel: Route -> bool, t: nat): real {
    if rs == [] then 0.0 else (if sel(rs[0]) then Term(y, rs[0], rs[0].loc, t) else 0.0) + SumIf(y, rs[1..], sel, t)
  }

  /** What running expert `e` on consecutive rows adds to token `t`. */
  function RowsSum(y: Expert, rows: seq<Route>, e: nat, t: nat): real {
    if rows == [] then 0.0 else Term(y, rows[0], e, t) + RowsSum(y, rows[1..], e, t)
  }

  function Of(e: nat): Route -> bool { (r: Route) => r.loc == e }

  function Below(k: nat): Route -> bool { (r: Route) => r.loc < k }

  function BelowOn(k: nat, on: nat -> bool): Route -> bool { (r: Route) => r.loc < k && on(r.loc) }

  function Not(on: nat -> bool): nat -> bool { (e: nat) => !on(e) }

  lemma {:induction false} SumIfConcat(y: Expert, a: seq<Route>, b: seq<Route>, sel: Route -> bool, t: nat)
    ensures SumIf(y, a + b, sel, t) == SumIf(y, a, sel, t) + SumIf(y, b, sel, t)
  {
    if a == [] {
      assert a + b == b;
    } else {
      assert (a + b)[1..] == a[1..] + b && (a + b)[0] == a[0];
      SumIfConcat(y, a[1..], b, sel, t);
    }
  }

  lemma {:induction false} RowsSumConcat(y: Expert, a: seq<Route>, b: seq<Route>, e: nat, t: nat)
    ensures RowsSum(y, a + b, e, t) == RowsSum(y, a, e, t) + RowsSum(y, b, e, t)
  {
    if a == [] {
      assert a + b == b;
    } else {
      assert (a + b)[1..] == a[1..] + b && (a + b)[0] == a[0];
      RowsSumConcat(y, a[1..], b, e, t);
    }
  }

  lemma {:induction false} SumIfSame(y: Expert, rs: seq<Route>, p: Route -> bool, q: Route -> bool, t: nat)
    requires forall r :: r in rs ==> p(r) == q(r)
    ensures SumIf(y, rs, p, t) == SumIf(y, rs, q, t)
  {
    if rs != [] {
      SumIfSame(y, rs[1..], p, q, t);
    }
  }

  lemma {:induction false} SumIfSplit(y: Expert, rs: seq<Route>, p: Route -> bool, q: Route -> bool, both: Route -> bool, t: nat)
    requires forall r :: r in rs ==> both(r) == (p(r) || q(r)) && !(p(r) && q(r))
    ensures SumIf(y, rs, both, t) == SumIf(y, rs, p, t) + SumIf(y, rs, q, t)
  {
    if rs != [] {
      SumIfSplit(y, rs[1..], p, q, both, t);
    }
  }

  lemma {:induction false} SumIfNone(y: Expert, rs: seq<Route>, p: Route -> bool, t: nat)
    requires forall r :: r in rs ==> !p(r)
    ensures SumIf(y, rs, p, t) == 0.0
  {
    if rs != [] {
      SumIfNone(y, rs[1..], p, t);
    }
  }

  /** Addition is exact and commutative: the sum depends on the multiset only. */
  lemma {:induction false} SumIfPermuted(y: Expert, a: seq<Route>, b: seq<Route>, sel: Route -> bool, t: nat)
    requires multiset(a) == multiset(b)
    ensures SumIf(y, a, sel, t) == SumIf(y, b, sel, t)
    decreases |a|
  {
    assert |multiset(a)| == |a| && |multiset(b)| == |b|;
    if a != [] {
      var x := a[0];
      assert a == [x] + a[1..];
      assert x in multiset(b);
      var i :| 0 <= i < |b| && b[i] == x;
      var rest := b[..i] + b[i + 1..];
      assert b == b[..i] + ([x] + b[i + 1..]);
      assert multiset(rest) == multiset(b) - multiset{x};
      assert multiset(a[1..]) == multiset(a) - multiset{x};
      SumIfPermuted(y, a[1..], rest, sel, t);
      SumIfConcat(y, b[..i], b[i + 1..], sel, t);
      SumIfConcat(y, b[..i], [x] + b[i + 1..], sel, t);
      assert ([x] + b[i + 1..])[1..] == b[i + 1..];
    }
  }

  /** Rows that all belong to expert `e` add up to their naive sum. */
  lemma {:induction false} RowsOfExpert(y: Expert, rows: seq<Route>, e: nat, t: nat)
    requires forall r :: r in rows ==> r.loc == e
    ensures RowsSum(y, rows, e, t) == SumIf(y, rows, Of(e), t)
  {
    if rows != [] {
      RowsOfExpert(y, rows[1..], e, t);
    }
  }

  function ExpertSum(y: Expert, rs: seq<Route>, e: nat, t: nat): real { SumIf(y, rs, Of(e), t) }

  /** Sum over the experts below `k` that satisfy `on`. */
  function SumExperts(y: Expert, rs: seq<Route>, on: nat -> bool, k: nat, t: nat): real {
    if k == 0 then 0.0 else SumExperts(y, rs, on, k - 1, t) + (if on(k - 1) then ExpertSum(y, rs, k - 1, t) else 0.0)
  }

  /** Summing expert by expert is the naive sum over the same routes. */
  lemma {:induction false} ExpertsPartition(y: Expert, rs: seq<Route>, on: nat -> bool, k: nat, t: nat)
    ensures SumExperts(y, rs, on, k, t) == SumIf(y, rs, BelowOn(k, on), t)
  {
    var below := BelowOn(k, on);
    if k == 0 {
      forall r | r in rs ensures !below(r) { assert below(r) == (r.loc < k && on(r.loc)); }
      SumIfNone(y, rs, below, t);
    } else {
      var less, here := BelowOn(k - 1, on), Of(k - 1);
      ExpertsPartition(y, rs, on, k - 1, t);
      if on(k - 1) {
        SumIfSplit(y, rs, less, here, below, t);
      } else {
        SumIfSame(y, rs, less, below, t);
      }
    }
  }

  // ----- local experts -----

  /** `map_topk_to_local` on one raw id. */
  function MapLocal(id: int, n: nat, emap: Option<seq<int>>): (l: nat)
    ensures l <= n
  {
    match emap
    case None => if id < 0 || id >= n then n else id
    case Some(m) =>
      var safe := Min(Max(id, 0), Max(|m| - 1, 0));
      var mapped := if |m| > 0 then m[safe] else n;
      if id < 0 || id >= |m| || mapped < 0 || mapped >= n then n else mapped
  }

  /** The local expert the Python loop runs for a raw id, if any. */
  function LoopLocal(id: int, n: nat, emap: Option<seq<int>>): (l: nat)
    ensures l <= n
  {
    if id < 0 then n
    else
      var mapped := if emap.Some? && |emap.value| > id then emap.value[id] else id;
      if emap.Some? && mapped < 0 then n else if mapped >= n then n else mapped
  }

  /** The two mappings differ exactly on ids past a short expert map that still name a
      local expert by position. */
  lemma MappingsAgree(id: int, n: nat, emap: Option<seq<int>>)
    ensures MapLocal(id, n, emap) == LoopLocal(id, n, emap) <==> !(emap.Some? && |emap.value| <= id < n)
  {
  }

  /** With an expert map covering every local expert the mappings never differ. */
  lemma MappingsAgreeOnFullMap(id: int, n: nat, emap: Option<seq<int>>)
    requires emap.Some? ==> |emap.value| >= n || id < |emap.value|
    ensures MapLocal(id, n, emap) == LoopLocal(id, n, emap)
  {
  }

  /** A two-expert layer with a one-entry map: id 1 is nobody's for the fused path and
      expert 1 for the loop. */
  lemma ShortMapDiffers()
    ensures MapLocal(1, 2, Some([0])) == 2 && LoopLocal(1, 2, Some([0])) == 1
  {
  }

  // ----- the sort by local expert -----

  predicate SortedByLoc(s: seq<Route>) { forall i, j :: 0 <= i < j < |s| ==> s[i].loc <= s[j].loc }

  /** `argsort` in any order among equal keys. */
  predicate IsSortOf(s: seq<Route>, rs: seq<Route>) { multiset(s) == multiset(rs) && SortedByLoc(s) }

  function Count(rs: seq<Route>, e: nat): nat { if rs == [] then 0 else (if rs[0].loc == e then 1 else 0) + Count(rs[1..], e) }

  function CountBelow(rs: seq<Route>, e: nat): nat {
    if rs == [] then 0 else (if rs[0].loc < e then 1 else 0) + CountBelow(rs[1..], e)
  }

  /** Sum of the first `k` entries: the exclusive prefix sum at `k`. */
  function Off(x: seq<nat>, k: nat): nat
    requires k <= |x|
  {
    if k == 0 then 0 else Off(x, k - 1) + x[k - 1]
  }

  predicate IsCounts(counts: seq<nat>, rs: seq<Route>) { forall e :: 0 <= e < |counts| ==> counts[e] == Count(rs, e) }

  lemma {:induction false} CountsAddUp(rs: seq<Route>, e: nat)
    ensures CountBelow(rs, e + 1) == CountBelow(rs, e) + Count(rs, e)
    ensures CountBelow(rs, 0) == 0 && CountBelow(rs, e) <= |rs|
  {
    if rs != [] {
      CountsAddUp(rs[1..], e);
    }
  }

  lemma {:induction false} OffIsCountBelow(counts: seq<nat>, rs: seq<Route>, k: nat)
    requires k <= |counts| && IsCounts(counts, rs)
    ensures Off(counts, k) == CountBelow(rs, k) <= |rs|
  {
    if k == 0 {
      CountsAddUp(rs, 0);
    } else {
      OffIsCountBelow(counts, rs, k - 1);
      CountsAddUp(rs, k - 1);
      CountsAddUp(rs, k);
    }
  }

  lemma {:induction false} CountPermuted(a: seq<Route>, b: seq<Route>, e: nat)
    requires multiset(a) == multiset(b)
    ensures Count(a, e) == Count(b, e)
    decreases |a|
  {
    assert |multiset(a)| == |a| && |multiset(b)| == |b|;
    if a != [] {
      var x := a[0];
      assert a == [x] + a[1..];
      assert x in multiset(b);
      var i :| 0 <= i < |b| && b[i] == x;
      assert b == b[..i] + ([x] + b[i + 1..]);
      assert multiset(b[..i] + b[i + 1..]) == multiset(b) - multiset{x};
      assert multiset(a[1..]) == multiset(a) - multiset{x};
      CountPermuted(a[1..], b[..i] + b[i + 1..], e);
      CountConcat(b[..i], b[i + 1..], e);
      CountConcat(b[..i], [x] + b[i + 1..], e);
      assert ([x] + b[i + 1..])[1..] == b[i + 1..];
    }
  }

  lemma {:induction false} CountConcat(a: seq<Route>, b: seq<Route>, e: nat)
    ensures Count(a + b, e) == Count(a, e) + Count(b, e)
  {
    if a == [] {
      assert a + b == b;
    } else {
      assert (a + b)[1..] == a[1..] + b && (a + b)[0] == a[0];
      CountConcat(a[1..], b, e);
    }
  }

  lemma {:induction false} PrefixBelow(s: seq<Route>, e: nat, p: nat)
    requires SortedByLoc(s) && p < |s|
    ensures p < CountBelow(s, e) <==> s[p].loc < e
  {
    forall i, j | 0 <= i < j < |s[1..]| ensures s[1..][i].loc <= s[1..][j].loc {
      assert s[1..][i] == s[i + 1] && s[1..][j] == s[j + 1];
    }
    if p > 0 {
      PrefixBelow(s[1..], e, p - 1);
      assert s[1..][p - 1] == s[p];
      if s[0].loc >= e { NoneBelow(s, e); }
    } else if s[0].loc >= e {
      NoneBelow(s, e);
    }
  }

  lemma {:induction false} NoneBelow(s: seq<Route>, e: nat)
    requires forall i :: 0 <= i < |s| ==> s[i].loc >= e
    ensures CountBelow(s, e) == 0
  {
    if s != [] {
      assert forall i :: 0 <= i < |s[1..]| ==> s[1..][i] == s[i + 1];
      NoneBelow(s[1..], e);
    }
  }

  /** After the sort, expert `e` owns exactly the positions [Off(e), Off(e) + count). */
  lemma SegmentOfExpert(s: seq<Route>, counts: seq<nat>, e: nat, p: nat)
    requires SortedByLoc(s) && IsCounts(counts, s) && e < |counts| && p < |s|
    ensures Off(counts, e) <= p < Off(counts, e) + counts[e] <==> s[p].loc == e
  {
    OffIsCountBelow(counts, s, e);
    OffIsCountBelow(counts, s, e + 1);
    PrefixBelow(s, e, p);
    PrefixBelow(s, e + 1, p);
  }

  /** The sorted rows of expert `e`. */
  function Segment(s: seq<Route>, counts: seq<nat>, e: nat): seq<Route>
    requires e < |counts| && Off(counts, e + 1) <= |s|
  {
    s[Off(counts, e)..Off(counts, e + 1)]
  }

  lemma {:induction false} SumIfOutside(y: Expert, rows: seq<Route>, e: nat, t: nat)
    requires forall i :: 0 <= i < |rows| ==> rows[i].loc != e
    ensures ExpertSum(y, rows, e, t) == 0.0
  {
    SumIfNone(y, rows, Of(e), t);
  }

  /** Running expert `e` on its segment contributes exactly its naive sum. */
  lemma SegmentSum(y: Expert, s: seq<Route>, rs: seq<Route>, counts: seq<nat>, e: nat, t: nat)
    requires IsSortOf(s, rs) && IsCounts(counts, rs) && e < |counts|
    ensures Off(counts, e + 1) <= |s|
    ensures RowsSum(y, Segment(s, counts, e), e, t) == ExpertSum(y, rs, e, t)
  {
    forall k | 0 <= k < |counts| ensures counts[k] == Count(s, k) { CountPermuted(s, rs, k); }
    OffIsCountBelow(counts, s, e);
    OffIsCountBelow(counts, s, e + 1);
    var a, b := Off(counts, e), Off(counts, e + 1);
    forall p | 0 <= p < |s| ensures a <= p < b <==> s[p].loc == e { SegmentOfExpert(s, counts, e, p); }
    RowsOfExpert(y, s[a..b], e, t);
    SumIfOutside(y, s[..a], e, t);
    SumIfOutside(y, s[b..], e, t);
    SumIfConcat(y, s[..a], s[a..b], Of(e), t);
    SumIfConcat(y, s[..a] + s[a..b], s[b..], Of(e), t);
    assert s == s[..a] + s[a..b] + s[b..];
    SumIfPermuted(y, s, rs, Of(e), t);
  }
}
