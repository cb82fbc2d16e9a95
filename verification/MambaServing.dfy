/** Requests as they are served (overlay/patch_mamba_align_state_free.py): prefill steps
    that commit in full, then decode steps whose draft tokens may be rejected, several of
    them in flight. Which state blocks are held, and when the reservation covers them. */
module MambaServing {
  import opened Common
  import opened MambaState
  import Arith

  /** A request being served: `full` counts the unsettled prefill steps, which come before
      all unsettled decode steps, and `reach` is the furthest token any step was scheduled
      to, rejected ones included. */
  datatype Serving = Serving(r: Run, full: nat, decoding: bool, reach: nat)

  datatype Move = Prefill(n: nat) | Decode(n: nat) | Settled(accepted: nat)

  /** Prefill ends with the first decode step; steps settle in order, prefill in full. */
  predicate Allowed(batches: nat, p: Serving, e: Move) {
    match e
    case Prefill(n) => n > 0 && !p.decoding && |p.r.flights| < batches
    case Decode(n) => n > 0 && |p.r.flights| < batches
    case Settled(a) => p.r.flights != [] && a <= p.r.flights[0] && (p.full > 0 ==> a == p.r.flights[0])
  }

  /** What a decode step really looks like: one token and at most `spec` drafts; only
      drafts are rejected. */
  predicate Drafted(c: Shape, p: Serving, e: Move) {
    match e
    case Prefill(_) => true
    case Decode(n) => n <= 1 + c.spec
    case Settled(a) => p.full == 0 ==> a >= 1
  }

  /** Decode steps that span at most one block. */
  predicate InBlock(c: Shape, e: Move) { e.Decode? ==> e.n <= c.block }

  function Next(c: Shape, p: Serving, e: Move): Serving
    requires c.block > 0 && (e.Settled? ==> p.r.flights != [] && e.accepted <= p.r.flights[0])
  {
    match e
    case Prefill(n) => Serving(Schedule(c, p.r, n), p.full + 1, false, Max(p.reach, Computed(p.r) + n))
    case Decode(n) => Serving(Schedule(c, p.r, n), p.full, true, Max(p.reach, Computed(p.r) + n))
    case Settled(a) => Serving(Settle(p.r, a), if p.full > 0 then p.full - 1 else 0, p.decoding, p.reach)
  }

  function Fresh(r: Run): Serving { Serving(r, 0, false, r.processed) }

  // ----- the block list follows the reach -----

  ghost predicate Tracked(c: Shape, p: Serving) {
    && RunOk(c, p.r)
    && |p.r.m.held| == Cdiv(c, p.reach) + Spare(c, p.r.m)
    && Computed(p.r) <= p.reach
  }

  /** What an allocation for `n` tokens does to the record, in terms of the reach. */
  lemma AllocateEntry(c: Shape, m: Blocks, reach: nat, n: nat)
    requires c.block > 0 && BlocksOk(c, m) && |m.held| == Cdiv(c, reach) + Spare(c, m) && (!m.started ==> Cdiv(c, n) > |m.held|)
    ensures var m2, top := Allocate(c, m, n), Cdiv(c, n);
            && m2.started
            && (if top > Cdiv(c, reach)
                then |m2.held| == top + c.spec && m2.stale == m.stale + (if Cdiv(c, reach) > 0 then [Cdiv(c, reach) - 1] else [])
                else m2 == m)
  {
  }

  /** What scheduling `n` tokens does to the record. */
  lemma NewEntry(c: Shape, p: Serving, n: nat)
    requires Tracked(c, p) && n > 0
    ensures var m, m2, top := Remove(c, p.r.m, p.r.processed), Schedule(c, p.r, n).m, Cdiv(c, Computed(p.r) + n);
            && m2.started
            && (if top > Cdiv(c, p.reach)
                then |m2.held| == top + c.spec && m2.stale == m.stale + (if Cdiv(c, p.reach) > 0 then [Cdiv(c, p.reach) - 1] else [])
                else m2 == m)
  {
    RemoveKeeps(c, p.r.m, p.r.processed);
    if !p.r.m.started {
      CdivMore(c, |p.r.m.held|, n);
      assert Sum(p.r.flights) == 0;
    }
    AllocateEntry(c, Remove(c, p.r.m, p.r.processed), p.reach, Computed(p.r) + n);
  }

  lemma ScheduleTracked(c: Shape, p: Serving, n: nat, full: nat, decoding: bool)
    requires Tracked(c, p) && n > 0
    ensures Tracked(c, Serving(Schedule(c, p.r, n), full, decoding, Max(p.reach, Computed(p.r) + n)))
  {
    ScheduleKeeps(c, p.r, n);
    NewEntry(c, p, n);
    RemoveKeeps(c, p.r.m, p.r.processed);
    StartAfter(p.r, n, Schedule(c, p.r, n).m, 0);
    if Computed(p.r) + n <= p.reach {
      CdivMono(c, Computed(p.r) + n, p.reach);
      assert p.r.m.started by { NotStartedGrows(c, p, n); }
    } else {
      CdivMono(c, p.reach, Computed(p.r) + n);
    }
  }

  /** The first step always extends the list. */
  lemma NotStartedGrows(c: Shape, p: Serving, n: nat)
    requires Tracked(c, p) && n > 0 && Cdiv(c, Computed(p.r) + n) <= Cdiv(c, p.reach)
    ensures p.r.m.started
  {
    if !p.r.m.started {
      CdivMore(c, |p.r.m.held|, n);
    }
  }

  lemma SettleTracked(c: Shape, p: Serving, a: nat, full: nat)
    requires Tracked(c, p) && p.r.flights != [] && a <= p.r.flights[0]
    ensures Tracked(c, Serving(Settle(p.r, a), full, p.decoding, p.reach))
  {
    SettleKeeps(c, p.r, a);
  }

  lemma NextTracked(c: Shape, batches: nat, p: Serving, e: Move)
    requires Tracked(c, p) && Allowed(batches, p, e)
    ensures Tracked(c, Next(c, p, e))
  {
    match e
    case Prefill(n) => ScheduleTracked(c, p, n, p.full + 1, false);
    case Decode(n) => ScheduleTracked(c, p, n, p.full, true);
    case Settled(a) => SettleTracked(c, p, a, if p.full > 0 then p.full - 1 else 0);
  }

  lemma FreshTracked(c: Shape, r: Run)
    requires Initial(c, r)
    ensures Tracked(c, Fresh(r))
  {
    InitialOk(c, r);
    CdivMore(c, |r.m.held|, 1);
  }

  // ----- the invariant of served requests -----

  /** First token of the unsettled decode steps. */
  function Edge(p: Serving): nat
    requires p.full <= |p.r.flights|
  {
    Start(p.r, p.full)
  }

  /** Recorded blocks from the `k`-th prefill step on: one per prefill step, and past the
      prefill no more than there are blocks up to the reach. */
  ghost predicate Few(c: Shape, p: Serving, k: nat)
    requires c.block > 0 && k <= p.full <= |p.r.flights|
  {
    CountFrom(p.r.m.stale, Cdiv(c, Start(p.r, k)) - 1) <= p.full - k + Cdiv(c, p.reach) - Cdiv(c, Edge(p))
  }

  /** Every block from the edge up to the running state is held. */
  ghost predicate NoGaps(c: Shape, p: Serving)
    requires c.block > 0 && p.full <= |p.r.flights|
  {
    forall i: nat :: Cdiv(c, Edge(p)) <= i + 1 <= Cdiv(c, p.reach) ==> HeldBlock(p.r.m, i)
  }

  predicate HeldBlock(m: Blocks, i: nat) { i < |m.held| && m.held[i] }

  /** Decode steps are at most a block long, and they have not reached further than the
      free batches allow. */
  predicate Close(c: Shape, batches: nat, p: Serving)
    requires p.full <= |p.r.flights| <= batches
  {
    && (forall k :: p.full <= k < |p.r.flights| ==> p.r.flights[k] <= c.block)
    && p.reach <= Edge(p) + (batches - p.full) * c.block
  }

  ghost predicate ServingOk(c: Shape, batches: nat, p: Serving) {
    && Tracked(c, p)
    && p.full <= |p.r.flights| <= batches
    && (!p.decoding ==> p.full == |p.r.flights| && p.reach == Computed(p.r))
    && Close(c, batches, p)
    && (forall k :: 0 <= k <= p.full ==> Few(c, p, k))
    && (forall k :: 0 <= k < p.full ==> ReadsHeld(c, p.r, k))
    && NoGaps(c, p)
  }

  lemma FreshOk(c: Shape, batches: nat, r: Run)
    requires Initial(c, r)
    ensures ServingOk(c, batches, Fresh(r))
  {
    var p := Fresh(r);
    FreshTracked(c, r);
    CdivMore(c, |r.m.held|, 1);
    assert Start(r, 0) == r.processed && Computed(r) == r.processed;
    assert batches * c.block >= 0 by { Arith.MulMono(c.block, 0, batches); }
    forall i: nat | Cdiv(c, Edge(p)) <= i + 1 <= Cdiv(c, p.reach) ensures HeldBlock(r.m, i) { assert i + 1 == |r.m.held|; }
  }

  lemma {:induction false} SumAtMost(s: seq<nat>, most: nat)
    requires forall k :: 0 <= k < |s| ==> s[k] <= most
    ensures Sum(s) <= |s| * most
  {
    if s != [] {
      SumAtMost(s[1..], most);
      Arith.OneMore(|s| - 1, most);
    }
  }

  /** The tokens computed lie at most a block per decode step past the edge. */
  lemma ComputedClose(c: Shape, batches: nat, p: Serving)
    requires p.full <= |p.r.flights| <= batches && Close(c, batches, p)
    ensures Computed(p.r) <= Edge(p) + (|p.r.flights| - p.full) * c.block
  {
    var f := p.r.flights;
    assert f == f[..p.full] + f[p.full..];
    SumConcat(f[..p.full], f[p.full..]);
    SumAtMost(f[p.full..], c.block);
  }

  lemma EdgeBelowReach(c: Shape, batches: nat, p: Serving)
    requires ServingOk(c, batches, p)
    ensures Edge(p) <= Computed(p.r) <= p.reach && Cdiv(c, Edge(p)) <= Cdiv(c, p.reach)
  {
    PrefixSum(p.r.flights, p.full);
    CdivMono(c, Edge(p), p.reach);
  }

  // ----- scheduling a step -----

  /** A release and an allocation keep the blocks from the processed prefix on. */
  lemma ScheduleHolds(c: Shape, p: Serving, n: nat, i: nat)
    requires Tracked(c, p) && n > 0 && HeldBlock(p.r.m, i) && Cdiv(c, p.r.processed) <= i + 1 <= Cdiv(c, p.reach)
    ensures HeldBlock(Schedule(c, p.r, n).m, i)
  {
    var m := Remove(c, p.r.m, p.r.processed);
    RemoveSpares(c, p.r.m, p.r.processed, i);
    RemoveKeeps(c, p.r.m, p.r.processed);
    if !p.r.m.started {
      CdivMore(c, |p.r.m.held|, n);
      assert Sum(p.r.flights) == 0;
    }
    AllocateHolds(c, m, Computed(p.r) + n, i);
  }

  /** The running state is always held. */
  lemma RunningHeld(c: Shape, p: Serving)
    requires Tracked(c, p) && p.r.m.started
    ensures Cdiv(c, p.reach) >= 1 && HeldBlock(p.r.m, Cdiv(c, p.reach) - 1)
  {
    assert |p.r.m.held| >= 1 + c.spec;
    assert HeldAt(c, p.r.m, Cdiv(c, p.reach) - 1);
  }

  lemma ProcessedBelow(c: Shape, r: Run, k: nat)
    requires c.block > 0 && k <= |r.flights|
    ensures r.processed <= Start(r, k) && Cdiv(c, r.processed) <= Cdiv(c, Start(r, k))
  {
    CdivMono(c, r.processed, Start(r, k));
  }

  /** The record grows by at most one entry, and only when the list does. */
  lemma OneMoreEntry(c: Shape, p: Serving, n: nat, lo: int)
    requires Tracked(c, p) && n > 0
    ensures var q := Schedule(c, p.r, n).m;
            CountFrom(q.stale, lo) <= CountFrom(p.r.m.stale, lo) + (if Cdiv(c, Computed(p.r) + n) > Cdiv(c, p.reach) then 1 else 0)
  {
    var m := Remove(c, p.r.m, p.r.processed);
    NewEntry(c, p, n);
    RemoveCounts(c, p.r.m, p.r.processed, lo);
    if Cdiv(c, Computed(p.r) + n) > Cdiv(c, p.reach) && Cdiv(c, p.reach) > 0 {
      var e := Cdiv(c, p.reach) - 1;
      CountFromConcat(m.stale, [e], lo);
      assert [e][1..] == [] && CountFrom([e], lo) <= 1;
    } else {
      assert m.stale + [] == m.stale;
    }
  }

  /** Prefill steps still read held blocks after another step was scheduled. */
  lemma PrefillReadsHeld(c: Shape, batches: nat, p: Serving, n: nat, k: nat)
    requires ServingOk(c, batches, p) && n > 0 && k <= p.full
    requires k < p.full || Start(p.r, k) == 0 || Cdiv(c, Start(p.r, k)) <= Cdiv(c, p.reach)
    ensures ReadsHeld(c, Schedule(c, p.r, n), k)
  {
    var q := Schedule(c, p.r, n);
    StartAfter(p.r, n, q.m, k);
    ProcessedBelow(c, p.r, k);
    if Start(p.r, k) > 0 {
      CdivPositive(c, Start(p.r, k));
      var i := Cdiv(c, Start(p.r, k)) - 1;
      EdgeBelowReach(c, batches, p);
      if k < p.full {
        assert ReadsHeld(c, p.r, k);
        PrefixSum(p.r.flights, k);
        CdivMono(c, Start(p.r, k), p.reach);
      } else {
        assert HeldBlock(p.r.m, i);
      }
      ScheduleHolds(c, p, n, i);
    }
  }

  lemma PrefillKeeps(c: Shape, batches: nat, p: Serving, n: nat)
    requires ServingOk(c, batches, p) && Allowed(batches, p, Prefill(n))
    ensures ServingOk(c, batches, Next(c, p, Prefill(n)))
  {
    var q := Next(c, p, Prefill(n));
    NextTracked(c, batches, p, Prefill(n));
    StartAfter(p.r, n, q.r.m, p.full);
    PrefillEdge(c, p, n);
    assert (batches - q.full) * c.block >= 0 by { Arith.MulMono(c.block, 0, batches - q.full); }
    forall k | 0 <= k <= q.full ensures Few(c, q, k) { PrefillFew(c, p, n, k); }
    forall k | 0 <= k < q.full ensures ReadsHeld(c, q.r, k) { PrefillReadsHeld(c, batches, p, n, k); }
    NewEntry(c, p, n);
    RunningHeld(c, q);
  }

  /** Prefill leaves the edge at the reach. */
  lemma PrefillEdge(c: Shape, p: Serving, n: nat)
    requires c.block > 0 && n > 0 && p.full == |p.r.flights| && p.reach == Computed(p.r)
    ensures var q := Next(c, p, Prefill(n));
            q.full == |q.r.flights| && Edge(p) == p.reach && Edge(q) == q.reach == Computed(p.r) + n
  {
    var q := Next(c, p, Prefill(n));
    StartAfter(p.r, n, q.r.m, 0);
    assert p.r.flights[..p.full] == p.r.flights && q.r.flights[..q.full] == q.r.flights;
  }

  lemma PrefillFew(c: Shape, p: Serving, n: nat, k: nat)
    requires Tracked(c, p) && n > 0 && p.full == |p.r.flights| && p.reach == Computed(p.r)
    requires k <= p.full + 1 && (k <= p.full ==> Few(c, p, k))
    ensures Few(c, Next(c, p, Prefill(n)), k)
  {
    var q := Next(c, p, Prefill(n));
    PrefillEdge(c, p, n);
    if k <= p.full {
      StartAfter(p.r, n, q.r.m, k);
      OneMoreEntry(c, p, n, Cdiv(c, Start(p.r, k)) - 1);
    } else {
      ScheduleTracked(c, p, n, q.full, false);
      StaleBelowReach(c, q);
      CountFromNone(q.r.m.stale, Cdiv(c, Start(q.r, k)) - 1);
    }
  }

  lemma StaleBelowReach(c: Shape, p: Serving)
    requires Tracked(c, p)
    ensures forall i :: 0 <= i < |p.r.m.stale| ==> p.r.m.stale[i] < Cdiv(c, p.reach) - 1
  {
    forall i | 0 <= i < |p.r.m.stale| ensures p.r.m.stale[i] < Cdiv(c, p.reach) - 1 { StaleBefore(c, p.r.m, i); }
  }

  /** A decode step inside one block extends the list by at most one block. */
  lemma DecodeGrowsByOne(c: Shape, p: Serving, n: nat)
    requires Tracked(c, p) && 0 < n <= c.block
    ensures Cdiv(c, Computed(p.r) + n) <= Cdiv(c, p.reach) + 1
  {
    CdivSpan(c, Computed(p.r), 1, Computed(p.r) + n);
    CdivMono(c, Computed(p.r), p.reach);
  }

  lemma DecodeKeeps(c: Shape, batches: nat, p: Serving, n: nat)
    requires ServingOk(c, batches, p) && Allowed(batches, p, Decode(n)) && n <= c.block
    ensures ServingOk(c, batches, Next(c, p, Decode(n)))
  {
    var q := Next(c, p, Decode(n));
    NextTracked(c, batches, p, Decode(n));
    StartAfter(p.r, n, q.r.m, p.full);
    assert Edge(q) == Edge(p);
    DecodeClose(c, batches, p, n);
    DecodeNoGaps(c, batches, p, n);
    forall k | 0 <= k <= q.full ensures Few(c, q, k) { DecodeFew(c, p, n, k); }
    forall k | 0 <= k < q.full ensures ReadsHeld(c, q.r, k) { PrefillReadsHeld(c, batches, p, n, k); }
  }

  lemma CdivMax(c: Shape, a: nat, b: nat)
    requires c.block > 0
    ensures Cdiv(c, Max(a, b)) == Max(Cdiv(c, a), Cdiv(c, b))
  {
    if a <= b {
      CdivMono(c, a, b);
    } else {
      CdivMono(c, b, a);
    }
  }

  lemma DecodeFew(c: Shape, p: Serving, n: nat, k: nat)
    requires Tracked(c, p) && n > 0 && k <= p.full <= |p.r.flights| && Few(c, p, k)
    ensures Few(c, Next(c, p, Decode(n)), k)
  {
    var q := Next(c, p, Decode(n));
    StartAfter(p.r, n, q.r.m, p.full);
    StartAfter(p.r, n, q.r.m, k);
    OneMoreEntry(c, p, n, Cdiv(c, Start(p.r, k)) - 1);
    CdivMax(c, p.reach, Computed(p.r) + n);
  }

  lemma DecodeClose(c: Shape, batches: nat, p: Serving, n: nat)
    requires ServingOk(c, batches, p) && Allowed(batches, p, Decode(n)) && n <= c.block
    ensures Close(c, batches, Next(c, p, Decode(n)))
  {
    var q := Next(c, p, Decode(n));
    StartAfter(p.r, n, q.r.m, p.full);
    ComputedClose(c, batches, p);
    Arith.OneMore(|p.r.flights| - p.full, c.block);
    Arith.MulMono(c.block, |p.r.flights| - p.full + 1, batches - p.full);
  }

  lemma DecodeNoGaps(c: Shape, batches: nat, p: Serving, n: nat)
    requires ServingOk(c, batches, p) && Allowed(batches, p, Decode(n)) && n <= c.block
    ensures NoGaps(c, Next(c, p, Decode(n)))
  {
    var q := Next(c, p, Decode(n));
    NextTracked(c, batches, p, Decode(n));
    NewEntry(c, p, n);
    StartAfter(p.r, n, q.r.m, p.full);
    DecodeGrowsByOne(c, p, n);
    ProcessedBelow(c, p.r, p.full);
    RunningHeld(c, q);
    forall i: nat | Cdiv(c, Edge(q)) <= i + 1 <= Cdiv(c, q.reach) ensures HeldBlock(q.r.m, i) {
      if i + 1 <= Cdiv(c, p.reach) {
        assert HeldBlock(p.r.m, i);
        ScheduleHolds(c, p, n, i);
      } else {
        assert i + 1 == Cdiv(c, q.reach);
      }
    }
  }

  // ----- settling a step -----

  lemma StartAfterSettle(r: Run, k: nat)
    requires r.flights != [] && k < |r.flights|
    ensures Start(Settle(r, r.flights[0]), k) == Start(r, k + 1)
  {
    assert r.flights[..k + 1][0] == r.flights[0] && r.flights[..k + 1][1..] == r.flights[1..][..k];
  }

  lemma PrefillSettles(c: Shape, batches: nat, p: Serving)
    requires ServingOk(c, batches, p) && p.full > 0
    ensures ServingOk(c, batches, Next(c, p, Settled(p.r.flights[0])))
  {
    var q := Next(c, p, Settled(p.r.flights[0]));
    NextTracked(c, batches, p, Settled(p.r.flights[0]));
    StartAfterSettle(p.r, q.full);
    assert Edge(q) == Edge(p);
    Arith.MulMono(c.block, batches - p.full, batches - q.full);
    forall k | 0 <= k <= q.full ensures Few(c, q, k) {
      StartAfterSettle(p.r, k);
      assert Few(c, p, k + 1);
    }
    forall k | 0 <= k < q.full ensures ReadsHeld(c, q.r, k) {
      StartAfterSettle(p.r, k);
      assert ReadsHeld(c, p.r, k + 1);
    }
    forall i: nat | Cdiv(c, Edge(q)) <= i + 1 <= Cdiv(c, q.reach) ensures HeldBlock(q.r.m, i) { assert HeldBlock(p.r.m, i); }
  }

  /** Distinct entries in a span are no more than its length. */
  lemma {:induction false} CountInSpan(s: seq<nat>, lo: int, hi: int)
    requires Ascending(s) && lo <= hi && forall i :: 0 <= i < |s| ==> s[i] < hi
    ensures CountFrom(s, lo) <= hi - lo
    decreases |s|
  {
    if s != [] {
      if s[0] < lo {
        CountInSpan(s[1..], lo, hi);
      } else {
        CountInSpan(s[1..], s[0] + 1, hi);
        CountFromAll(s[1..], lo);
        CountFromAll(s[1..], s[0] + 1);
      }
    }
  }

  lemma DecodeSettles(c: Shape, batches: nat, p: Serving, a: nat)
    requires ServingOk(c, batches, p) && p.full == 0 && Allowed(batches, p, Settled(a))
    ensures ServingOk(c, batches, Next(c, p, Settled(a)))
  {
    var q := Next(c, p, Settled(a));
    NextTracked(c, batches, p, Settled(a));
    assert Edge(p) == p.r.processed && Edge(q) == q.r.processed == p.r.processed + a;
    CdivMono(c, Edge(p), Edge(q));
    CdivMono(c, Edge(q), q.reach);
    StaleBelowReach(c, q);
    CountInSpan(q.r.m.stale, Cdiv(c, Edge(q)) - 1, Cdiv(c, q.reach) - 1);
    forall i: nat | Cdiv(c, Edge(q)) <= i + 1 <= Cdiv(c, q.reach) ensures HeldBlock(q.r.m, i) { assert HeldBlock(p.r.m, i); }
    forall k | 0 <= k < |q.r.flights| ensures q.r.flights[k] <= c.block { assert p.r.flights[k + 1] == q.r.flights[k]; }
  }

  lemma NextOk(c: Shape, batches: nat, p: Serving, e: Move)
    requires ServingOk(c, batches, p) && Allowed(batches, p, e) && InBlock(c, e)
    ensures ServingOk(c, batches, Next(c, p, e))
  {
    match e
    case Prefill(n) => PrefillKeeps(c, batches, p, n);
    case Decode(n) => DecodeKeeps(c, batches, p, n);
    case Settled(a) =>
      if p.full > 0 {
        PrefillSettles(c, batches, p);
      } else {
        DecodeSettles(c, batches, p, a);
      }
  }

  // ----- what the invariant gives -----

  /** Every unsettled step, and the next one, still finds the state block that it reads. */
  lemma StepsFindTheirState(c: Shape, batches: nat, p: Serving, k: nat)
    requires ServingOk(c, batches, p) && k <= |p.r.flights|
    ensures ReadsHeld(c, p.r, k)
  {
    if k >= p.full && Start(p.r, k) > 0 {
      var f := p.r.flights;
      assert f[..k] == f[..p.full] + f[p.full..k];
      SumConcat(f[..p.full], f[p.full..k]);
      PrefixSum(f, k);
      CdivMono(c, Edge(p), Start(p.r, k));
      CdivMono(c, Start(p.r, k), p.reach);
      CdivPositive(c, Start(p.r, k));
      assert HeldBlock(p.r.m, Cdiv(c, Start(p.r, k)) - 1);
    }
  }

  /** After a release, nothing recorded lies before the processed prefix. */
  lemma RecordedFrom(c: Shape, p: Serving, n: nat)
    requires Tracked(c, p) && n > 0
    ensures CountFrom(Schedule(c, p.r, n).m.stale, Cdiv(c, p.r.processed) - 1) == |Schedule(c, p.r, n).m.stale|
  {
    var m, lo := Remove(c, p.r.m, p.r.processed), Cdiv(c, p.r.processed) - 1;
    NewEntry(c, p, n);
    RemoveKeeps(c, p.r.m, p.r.processed);
    CdivMono(c, p.r.processed, p.reach);
    CountFromAll(m.stale, lo);
    CountFromAll(Schedule(c, p.r, n).m.stale, lo);
  }

  lemma FewFits(c: Shape, batches: nat, q: Serving)
    requires ServingOk(c, batches, q)
    ensures CountFrom(q.r.m.stale, Cdiv(c, q.r.processed) - 1) <= batches
  {
    assert Start(q.r, 0) == q.r.processed;
    assert Few(c, q, 0);
    CdivSpan(c, Edge(q), batches - q.full, q.reach);
  }

  /** Scheduling keeps the record within one entry per batch. */
  lemma ScheduleFits(c: Shape, batches: nat, p: Serving, n: nat, q: Serving)
    requires Tracked(c, p) && n > 0 && q.r == Schedule(c, p.r, n) && ServingOk(c, batches, q)
    ensures HeldCount(q.r.m.held) <= ReservedPages(c, batches)
  {
    RecordedFrom(c, p, n);
    FewFits(c, batches, q);
    HeldBound(c, q.r.m);
  }

  lemma MoveFits(c: Shape, batches: nat, p: Serving, e: Move)
    requires ServingOk(c, batches, p) && Allowed(batches, p, e) && InBlock(c, e)
    requires HeldCount(p.r.m.held) <= ReservedPages(c, batches)
    ensures HeldCount(Next(c, p, e).r.m.held) <= ReservedPages(c, batches)
  {
    NextOk(c, batches, p, e);
    match e
    case Prefill(n) => ScheduleFits(c, batches, p, n, Next(c, p, e));
    case Decode(n) => ScheduleFits(c, batches, p, n, Next(c, p, e));
    case Settled(_) =>
  }

  // ----- runs -----

  /** `q` is reached from `p` by the moves; `drafts` confines decode steps to what the
      server really issues and settles. */
  ghost predicate Serves(c: Shape, batches: nat, drafts: bool, p: Serving, moves: seq<Move>, q: Serving)
    requires c.block > 0
    decreases |moves|
  {
    if moves == [] then p == q
    else Allowed(batches, p, moves[0]) && (drafts ==> Drafted(c, p, moves[0])) && Serves(c, batches, drafts, Next(c, p, moves[0]), moves[1..], q)
  }

  predicate AllInBlock(c: Shape, moves: seq<Move>) { forall k :: 0 <= k < |moves| ==> InBlock(c, moves[k]) }

  lemma {:induction false} ServesKeeps(c: Shape, batches: nat, p: Serving, moves: seq<Move>, q: Serving)
    requires ServingOk(c, batches, p) && HeldCount(p.r.m.held) <= ReservedPages(c, batches)
    requires Serves(c, batches, false, p, moves, q) && AllInBlock(c, moves)
    ensures ServingOk(c, batches, q) && HeldCount(q.r.m.held) <= ReservedPages(c, batches)
    decreases |moves|
  {
    if moves != [] {
      assert InBlock(c, moves[0]);
      NextOk(c, batches, p, moves[0]);
      MoveFits(c, batches, p, moves[0]);
      ServesKeeps(c, batches, Next(c, p, moves[0]), moves[1..], q);
    }
  }

  /** Main theorem: from a new request on, through any prefill and any decode steps of at
      most a block, whatever they reject (all of their tokens included), the request never
      holds more than 1 + batches + spec state blocks. */
  lemma RunsKeepReservation(c: Shape, batches: nat, r: Run, moves: seq<Move>, q: Serving)
    requires Initial(c, r) && Serves(c, batches, false, Fresh(r), moves, q) && AllInBlock(c, moves)
    ensures HeldCount(q.r.m.held) <= ReservedPages(c, batches)
  {
    FreshOk(c, batches, r);
    InitialOk(c, r);
    HeldBound(c, r.m);
    ServesKeeps(c, batches, Fresh(r), moves, q);
  }

  /** Main theorem: in every such run each unsettled step, and the next one, finds the
      state block that it reads. */
  lemma RunsFindTheirState(c: Shape, batches: nat, r: Run, moves: seq<Move>, q: Serving, k: nat)
    requires Initial(c, r) && Serves(c, batches, false, Fresh(r), moves, q) && AllInBlock(c, moves) && k <= |q.r.flights|
    ensures ReadsHeld(c, q.r, k)
  {
    FreshOk(c, batches, r);
    InitialOk(c, r);
    HeldBound(c, r.m);
    ServesKeeps(c, batches, Fresh(r), moves, q);
    StepsFindTheirState(c, batches, q, k);
  }

  // ----- when drafts are longer than a block -----

  lemma {:induction false} ServesConcat(c: Shape, batches: nat, drafts: bool, p: Serving, a: seq<Move>, m: Serving, b: seq<Move>, q: Serving)
    requires c.block > 0 && Serves(c, batches, drafts, p, a, m) && Serves(c, batches, drafts, m, b, q)
    ensures Serves(c, batches, drafts, p, a + b, q)
    decreases |a|
  {
    if a == [] {
      assert a + b == b;
    } else {
      assert (a + b)[0] == a[0] && (a + b)[1..] == a[1..] + b;
      ServesConcat(c, batches, drafts, Next(c, p, a[0]), a[1..], m, b, q);
    }
  }

  /** One more move that the server really makes. */
  lemma ServesSnoc(c: Shape, batches: nat, p: Serving, moves: seq<Move>, q: Serving, e: Move)
    requires c.block > 0 && Serves(c, batches, true, p, moves, q) && Allowed(batches, q, e) && Drafted(c, q, e)
    ensures Serves(c, batches, true, p, moves + [e], Next(c, q, e))
  {
    assert [e][1..] == [];
    assert Serves(c, batches, true, Next(c, q, e), [], Next(c, q, e));
    ServesConcat(c, batches, true, p, moves, q, [e], Next(c, q, e));
  }

  /** A decode step that extends the list while nothing can be released. */
  lemma DecodeRecords(c: Shape, p: Serving, n: nat)
    requires Tracked(c, p) && n > 0 && Cdiv(c, Computed(p.r) + n) > Cdiv(c, p.reach) > 0
    requires p.r.m.stale == [] || p.r.m.stale[0] + 1 >= Cdiv(c, p.r.processed)
    ensures var q := Next(c, p, Decode(n));
            && Tracked(c, q) && q.reach == Computed(p.r) + n == Computed(q.r)
            && q.r.m.stale == p.r.m.stale + [Cdiv(c, p.reach) - 1]
  {
    NewEntry(c, p, n);
    ScheduleTracked(c, p, n, p.full, true);
    StartAfter(p.r, n, Schedule(c, p.r, n).m, 0);
    CdivMax(c, p.reach, Computed(p.r) + n);
  }

  /** Nothing in flight, one token rejected just past a block boundary, and the block in
      front of the boundary recorded but not passed. */
  ghost predicate Primed(c: Shape, p: Serving) {
    && Tracked(c, p) && p.r.flights == [] && p.full == 0 && p.decoding
    && p.r.processed > 0 && p.reach == p.r.processed + 1 && Cdiv(c, p.reach) == Cdiv(c, p.r.processed) + 1
    && p.r.m.stale == [Cdiv(c, p.r.processed) - 1]
  }

  lemma CdivShift(c: Shape, n: nat, j: nat)
    requires c.block > 0
    ensures j * c.block >= 0 && Cdiv(c, n + j * c.block) == Cdiv(c, n) + j
  {
    Arith.MulMono(c.block, 0, j);
    var x, d := n + c.block - 1, c.block;
    Arith.DivMulBounds(x, d);
    assert (x / d + j) * d == x / d * d + j * d;
    Arith.DivUnique(x + j * d, d, x / d + j, x - x / d * d);
  }

  /** From there, `j` decode steps in flight record one block each. */
  lemma {:induction false} FillUp(c: Shape, batches: nat, p: Serving, j: nat) returns (moves: seq<Move>, q: Serving)
    requires Primed(c, p) && 1 <= j <= batches && c.block <= c.spec
    ensures Serves(c, batches, true, p, moves, q) && Tracked(c, q) && |q.r.flights| == j && q.r.processed == p.r.processed
    ensures j * c.block >= 0 && q.reach == Computed(q.r) == p.reach + j * c.block
    ensures |q.r.m.stale| == j + 1 && q.r.m.stale[0] == Cdiv(c, p.r.processed) - 1 && q.full == 0
    decreases j
  {
    CdivPositive(c, p.r.processed);
    if j == 1 {
      CdivShift(c, p.reach, 1);
      assert Serves(c, batches, true, p, [], p);
      DecodeRecords(c, p, 1 + c.block);
      ServesSnoc(c, batches, p, [], p, Decode(1 + c.block));
      moves, q := [] + [Decode(1 + c.block)], Next(c, p, Decode(1 + c.block));
    } else {
      var before, m := FillUp(c, batches, p, j - 1);
      CdivShift(c, p.reach, j - 1);
      CdivShift(c, m.reach, 1);
      Arith.OneMore(j - 1, c.block);
      DecodeRecords(c, m, c.block);
      ServesSnoc(c, batches, p, before, m, Decode(c.block));
      moves, q := before + [Decode(c.block)], Next(c, m, Decode(c.block));
    }
  }

  /** A decode step settles with all of its drafts but one rejected. */
  lemma OneAccepted(c: Shape, batches: nat, p: Serving, moves: seq<Move>, q: Serving)
    requires c.block > 0 && Serves(c, batches, true, p, moves, q) && Tracked(c, q) && q.full == 0 && |q.r.flights| == 1 && q.r.flights[0] >= 1
    ensures var t := Next(c, q, Settled(1));
            && Serves(c, batches, true, p, moves + [Settled(1)], t) && Tracked(c, t) && t.full == 0
            && t.r == Run(q.r.m, q.r.processed + 1, []) && t.reach == q.reach && t.decoding == q.decoding
  {
    ServesSnoc(c, batches, p, moves, q, Settled(1));
    SettleTracked(c, q, 1, 0);
    assert q.r.flights[1..] == [];
  }

  function NoBlocks(): Run { Run(Blocks([], [], false), 0, []) }

  /** Prefill of `n` tokens, settled. */
  lemma Started(c: Shape, batches: nat, n: nat) returns (moves: seq<Move>, p: Serving)
    requires c.block > 0 && batches >= 1 && 0 < n <= c.block
    ensures Serves(c, batches, true, Fresh(NoBlocks()), moves, p) && Tracked(c, p)
    ensures p.r.flights == [] && p.r.processed == n == p.reach && p.full == 0 && p.r.m.stale == [] && !p.decoding
  {
    var f := Fresh(NoBlocks());
    FreshTracked(c, NoBlocks());
    assert Serves(c, batches, true, f, [], f);
    assert Cdiv(c, 0) == 0;
    CdivPositive(c, n);
    NewEntry(c, f, n);
    ScheduleTracked(c, f, n, 1, false);
    ServesSnoc(c, batches, f, [], f, Prefill(n));
    var m := Next(c, f, Prefill(n));
    assert m.r.flights == [n] && m.r.m.stale == [];
    ServesSnoc(c, batches, f, [] + [Prefill(n)], m, Settled(n));
    SettleTracked(c, m, n, 0);
    moves, p := [] + [Prefill(n)] + [Settled(n)], Next(c, m, Settled(n));
  }

  /** A decode step of two tokens of which the draft is rejected. */
  lemma DraftRejected(c: Shape, batches: nat, f: Serving, before: seq<Move>, p: Serving) returns (moves: seq<Move>, q: Serving)
    requires c.block > 0 && batches >= 1 && c.spec >= 1 && Serves(c, batches, true, f, before, p) && Tracked(c, p)
    requires p.r.flights == [] && p.full == 0 && Cdiv(c, p.r.processed + 2) > Cdiv(c, p.reach) > 0
    ensures Serves(c, batches, true, f, moves, q) && Tracked(c, q)
    ensures q.r.flights == [] && q.full == 0 && q.decoding && q.r.processed == p.r.processed + 1 && q.reach == p.r.processed + 2
    ensures q.r.m.stale == Remove(c, p.r.m, p.r.processed).stale + [Cdiv(c, p.reach) - 1]
  {
    NewEntry(c, p, 2);
    ScheduleTracked(c, p, 2, 0, true);
    CdivMax(c, p.reach, p.r.processed + 2);
    ServesSnoc(c, batches, f, before, p, Decode(2));
    var m := Next(c, p, Decode(2));
    assert m.r.flights == [2];
    OneAccepted(c, batches, f, before + [Decode(2)], m);
    moves, q := before + [Decode(2)] + [Settled(1)], Next(c, m, Settled(1));
  }

  lemma AroundABlock(c: Shape)
    requires c.block >= 2
    ensures Cdiv(c, c.block - 1) == 1 && Cdiv(c, c.block) == 1 && Cdiv(c, c.block + 1) == 2
  {
    var d := c.block;
    Arith.DivUnique(d - 1 + d - 1, d, 1, d - 2);
    Arith.DivUnique(d + d - 1, d, 1, d - 1);
    Arith.DivUnique(d + 1 + d - 1, d, 2, 0);
  }

  /** Reaching the primed state with blocks of at least two tokens ... */
  lemma PrimeWide(c: Shape, batches: nat) returns (moves: seq<Move>, p: Serving)
    requires 2 <= c.block <= c.spec && batches >= 1
    ensures Serves(c, batches, true, Fresh(NoBlocks()), moves, p) && Primed(c, p)
  {
    var a, s := Started(c, batches, c.block - 1);
    AroundABlock(c);
    moves, p := DraftRejected(c, batches, Fresh(NoBlocks()), a, s);
  }

  /** ... and of one token, where it takes one rejected draft more. */
  lemma PrimeNarrow(c: Shape, batches: nat) returns (moves: seq<Move>, p: Serving)
    requires c.block == 1 <= c.spec && batches >= 1
    ensures Serves(c, batches, true, Fresh(NoBlocks()), moves, p) && Primed(c, p)
  {
    assert forall n: nat :: Cdiv(c, n) == n;
    var a, s := Started(c, batches, 1);
    var b, t := DraftRejected(c, batches, Fresh(NoBlocks()), a, s);
    assert t.r.m.stale == [0];
    assert Remove(c, t.r.m, 2).stale == [];
    moves, p := DraftRejected(c, batches, Fresh(NoBlocks()), b, t);
  }

  /** With at least as many drafts as a block has tokens the server overruns its own
      reservation: every draft of two steps rejected, then a full pipeline. */
  lemma DraftsOverrun(c: Shape, batches: nat) returns (moves: seq<Move>, q: Serving)
    requires 1 <= c.block <= c.spec && batches >= 1
    ensures Initial(c, NoBlocks()) && Serves(c, batches, true, Fresh(NoBlocks()), moves, q)
    ensures HeldCount(q.r.m.held) > ReservedPages(c, batches)
  {
    var a, p;
    if c.block == 1 {
      a, p := PrimeNarrow(c, batches);
    } else {
      a, p := PrimeWide(c, batches);
    }
    var b;
    b, q := FillUp(c, batches, p, batches);
    moves := a + b;
    ServesConcat(c, batches, true, Fresh(NoBlocks()), a, p, b, q);
    HeldExactly(c, q.r.m);
  }

  /** No run that the server really makes exceeds the reservation. */
  ghost predicate AlwaysFits(c: Shape, batches: nat)
    requires c.block > 0
  {
    forall r: Run, moves: seq<Move>, q: Serving :: Initial(c, r) && Serves(c, batches, true, Fresh(r), moves, q) ==>
      HeldCount(q.r.m.held) <= ReservedPages(c, batches)
  }

  lemma {:induction false} DraftsInBlock(c: Shape, batches: nat, p: Serving, moves: seq<Move>, q: Serving)
    requires c.block > c.spec && Serves(c, batches, true, p, moves, q)
    ensures Serves(c, batches, false, p, moves, q) && AllInBlock(c, moves)
    decreases |moves|
  {
    if moves != [] {
      DraftsInBlock(c, batches, Next(c, p, moves[0]), moves[1..], q);
      forall k | 0 <= k < |moves| ensures InBlock(c, moves[k]) {
        if k > 0 { assert moves[1..][k - 1] == moves[k]; }
      }
    }
  }

  /** Main theorem: the reservation of one page for the running state, one per batch and
      one per draft covers every run of the server if and only if a decode step with all
      its drafts fits in a block. */
  lemma ReservationExactlyWhen(c: Shape, batches: nat)
    requires c.block > 0 && batches >= 1
    ensures AlwaysFits(c, batches) <==> 1 + c.spec <= c.block
  {
    if 1 + c.spec <= c.block {
      forall r: Run, moves: seq<Move>, q: Serving | Initial(c, r) && Serves(c, batches, true, Fresh(r), moves, q)
        ensures HeldCount(q.r.m.held) <= ReservedPages(c, batches)
      {
        DraftsInBlock(c, batches, Fresh(r), moves, q);
        RunsKeepReservation(c, batches, r, moves, q);
      }
    } else {
      var moves, q := DraftsOverrun(c, batches);
    }
  }
}
