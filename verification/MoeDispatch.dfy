/** apply_exl3_fused_moe of overlay/exl3.py: which launches a batch gets, and that every
    path adds up to the naive sum over (token, slot) pairs. */
module MoeDispatch {
  import opened Common
  import opened MoeRoutes
  import opened MoeTiers
  import opened MoeRowTiles
  import opened MoeGrouped
  import G = GroupedTables
  import MoeLoop

  /** One top-k slot of a token. */
  datatype Slot = Slot(raw: int, wt: real)

  type Batch = seq<seq<Slot>>

  /** The naive reference: every slot of token `t` whose expert is local. */
  function Naive(y: Expert, slots: seq<Slot>, local: int -> nat, n: nat, t: nat): real {
    if slots == [] then 0.0
    else (if local(slots[0].raw) < n then slots[0].wt * y(local(slots[0].raw), t) else 0.0) + Naive(y, slots[1..], local, n, t)
  }

  function TokenRoutes(slots: seq<Slot>, local: int -> nat, t: nat): (rs: seq<Route>)
    ensures |rs| == |slots|
    ensures forall k :: 0 <= k < |rs| ==> rs[k] == Route(t, slots[k].wt, slots[k].raw, local(slots[k].raw))
  {
    seq(|slots|, k requires 0 <= k < |slots| => Route(t, slots[k].wt, slots[k].raw, local(slots[k].raw)))
  }

  /** `repeat_interleave`: the slots of token 0, then of token 1, and so on. */
  function Routes(batch: Batch, local: int -> nat, m: nat): (rs: seq<Route>)
    requires m <= |batch|
    ensures forall r :: r in rs ==> r.tok < m && r.loc == local(r.raw)
  {
    if m == 0 then [] else Routes(batch, local, m - 1) + TokenRoutes(batch[m - 1], local, m - 1)
  }

  lemma {:induction false} TokenSum(y: Expert, slots: seq<Slot>, local: int -> nat, n: nat, t0: nat, t: nat)
    ensures SumIf(y, TokenRoutes(slots, local, t0), Below(n), t) == if t == t0 then Naive(y, slots, local, n, t) else 0.0
  {
    var rs := TokenRoutes(slots, local, t0);
    if slots != [] {
      assert rs[1..] == TokenRoutes(slots[1..], local, t0);
      TokenSum(y, slots[1..], local, n, t0, t);
    }
  }

  /** Flattening loses and doubles nothing: the sum over all routes is the naive sum of
      the token's own slots. */
  lemma {:induction false} RoutesSum(y: Expert, batch: Batch, local: int -> nat, n: nat, m: nat, t: nat)
    requires m <= |batch|
    ensures SumIf(y, Routes(batch, local, m), Below(n), t) == if t < m then Naive(y, batch[t], local, n, t) else 0.0
  {
    if m > 0 {
      RoutesSum(y, batch, local, n, m - 1, t);
      TokenSum(y, batch[m - 1], local, n, m - 1, t);
      SumIfConcat(y, Routes(batch, local, m - 1), TokenRoutes(batch[m - 1], local, m - 1), Below(n), t);
    }
  }

  function Map(n: nat, emap: Option<seq<int>>): int -> nat { (id: int) => MapLocal(id, n, emap) }

  function Loop(n: nat, emap: Option<seq<int>>): int -> nat { (id: int) => LoopLocal(id, n, emap) }

  /** No id lies past a short expert map while still naming a local expert by position. */
  predicate MapCovers(batch: Batch, n: nat, emap: Option<seq<int>>) {
    forall slots :: slots in batch ==> forall s :: s in slots ==> !(emap.Some? && |emap.value| <= s.raw < n)
  }

  lemma {:induction false} SameRoutes(batch: Batch, n: nat, emap: Option<seq<int>>, m: nat)
    requires m <= |batch| && MapCovers(batch, n, emap)
    ensures Routes(batch, Map(n, emap), m) == Routes(batch, Loop(n, emap), m)
  {
    if m > 0 {
      SameRoutes(batch, n, emap, m - 1);
      var slots := batch[m - 1];
      assert slots in batch;
      forall k | 0 <= k < |slots| ensures MapLocal(slots[k].raw, n, emap) == LoopLocal(slots[k].raw, n, emap) {
        assert slots[k] in slots;
        MappingsAgree(slots[k].raw, n, emap);
      }
      assert TokenRoutes(slots, Map(n, emap), m - 1) == TokenRoutes(slots, Loop(n, emap), m - 1);
    }
  }

  /** `scatter_add_` of ones: the last bucket holds the sentinel routes. */
  method CountExperts(rs: seq<Route>, n: nat) returns (counts: array<nat>)
    requires forall r :: r in rs ==> r.loc <= n
    ensures fresh(counts) && counts.Length == n + 1
    ensures forall e :: 0 <= e <= n ==> counts[e] == Count(rs, e)
  {
    counts := new nat[n + 1](_ => 0);
    assert rs[..|rs|] == rs;
    var i := 0;
    while i < |rs|
      invariant 0 <= i <= |rs|
      invariant forall e :: 0 <= e <= n ==> counts[e] == Count(rs[..i], e)
    {
      forall e | 0 <= e <= n ensures Count(rs[..i + 1], e) == Count(rs[..i], e) + (if rs[i].loc == e then 1 else 0) {
        assert rs[..i + 1] == rs[..i] + [rs[i]];
        CountConcat(rs[..i], [rs[i]], e);
      }
      assert rs[i] in rs;
      counts[rs[i].loc] := counts[rs[i].loc] + 1;
      i := i + 1;
    }
  }

  method MaxOf(counts: seq<nat>) returns (m: nat)
    ensures forall e :: 0 <= e < |counts| ==> counts[e] <= m
    ensures m > 0 ==> m in counts
  {
    m := 0;
    for e := 0 to |counts|
      invariant forall k :: 0 <= k < e ==> counts[k] <= m
      invariant m > 0 ==> m in counts
    {
      if counts[e] > m { m := counts[e]; }
    }
  }

  // ----- the dispatcher -----

  datatype Settings = Settings(cap: nat, rowTiles: bool, grouped: bool, fatKernel: bool, batched: bool, sortedFat: bool,
                               sharedSuh: bool, groupedReady: bool, tileGu: nat, tileDn: nat)

  datatype Tier = Grouped | RowTiled | Batched | Sorted | Legacy

  /** The overflow tier of a batch with more tokens than the temporaries hold. */
  function TierOf(c: Settings): Tier {
    var wantBatched := c.batched || c.fatKernel || c.grouped;
    if c.grouped && !c.rowTiles && c.groupedReady then Grouped
    else if c.rowTiles then RowTiled
    else if wantBatched && c.sharedSuh then Batched
    else if c.sortedFat || wantBatched then Sorted
    else Legacy
  }

  /** The routes run by the fused kernel alone: experts within the temporaries. */
  function Thin(y: Expert, rs: seq<Route>, counts: seq<nat>, cap: nat, t: nat): real {
    SumIf(y, rs, BelowOn(|counts|, Fits(counts, cap)), t)
  }

  function Over(y: Expert, rs: seq<Route>, counts: seq<nat>, cap: nat, t: nat): real {
    SumIf(y, rs, BelowOn(|counts|, Not(Fits(counts, cap))), t)
  }

  predicate Ready(rs: seq<Route>, sorted: seq<Route>, counts: seq<nat>, tokens: nat) {
    && IsSortOf(sorted, rs) && IsCounts(counts, rs) && (forall r :: r in sorted ==> r.tok < tokens)
    && Off(counts, |counts|) <= |sorted|
  }

  lemma Readiness(rs: seq<Route>, sorted: seq<Route>, counts: seq<nat>, tokens: nat)
    requires IsSortOf(sorted, rs) && IsCounts(counts, rs) && forall r :: r in rs ==> r.tok < tokens
    ensures Ready(rs, sorted, counts, tokens)
  {
    OffIsCountBelow(counts, rs, |counts|);
    assert |sorted| == |multiset(sorted)| == |multiset(rs)| == |rs|;
    forall r | r in sorted ensures r in rs { assert r in multiset(sorted); }
  }

  /** On a sort of the routes the slices of the fitting and of the over-full experts are the
      thin and the over-full part of the naive sum, and add up to it. */
  lemma ThinAndOver(y: Expert, rs: seq<Route>, sorted: seq<Route>, counts: seq<nat>, cap: nat, tokens: nat, t: nat)
    requires Ready(rs, sorted, counts, tokens)
    ensures SlicesSum(y, sorted, counts, Fits(counts, cap), |counts|, t) == Thin(y, rs, counts, cap, t)
    ensures SlicesSum(y, sorted, counts, Not(Fits(counts, cap)), |counts|, t) == Over(y, rs, counts, cap, t)
    ensures SlicesSum(y, sorted, counts, Always(), |counts|, t) == SumIf(y, rs, Below(|counts|), t)
    ensures Thin(y, rs, counts, cap, t) + Over(y, rs, counts, cap, t) == SumIf(y, rs, Below(|counts|), t)
  {
    var k := |counts|;
    SlicesAreExperts(y, sorted, rs, counts, Fits(counts, cap), k, t);
    SlicesAreExperts(y, sorted, rs, counts, Not(Fits(counts, cap)), k, t);
    SlicesAreExperts(y, sorted, rs, counts, Always(), k, t);
    ExpertsPartition(y, rs, Fits(counts, cap), k, t);
    ExpertsPartition(y, rs, Not(Fits(counts, cap)), k, t);
    ExpertsPartition(y, rs, Always(), k, t);
    SumIfSame(y, rs, BelowOn(k, Always()), Below(k), t);
    SumIfSplit(y, rs, BelowOn(k, Fits(counts, cap)), BelowOn(k, Not(Fits(counts, cap))), Below(k), t);
  }

  lemma NothingOver(y: Expert, rs: seq<Route>, counts: seq<nat>, cap: nat, t: nat)
    requires forall e :: 0 <= e < |counts| ==> counts[e] <= cap
    ensures Over(y, rs, counts, cap, t) == 0.0
  {
    var over := BelowOn(|counts|, Not(Fits(counts, cap)));
    forall r | r in rs ensures !over(r) {
      if r.loc < |counts| { assert Fits(counts, cap)(r.loc); }
    }
    SumIfNone(y, rs, over, t);
  }

  /** The single launch of a batch no larger than the temporaries (the decode path). */
  method ThinLaunch(out: array<real>, y: Expert, cap: nat, ghost rs: seq<Route>, counts: seq<nat>, sorted: seq<Route>)
    requires Ready(rs, sorted, counts, out.Length)
    modifies out
    ensures forall t :: 0 <= t < out.Length ==> out[t] == old(out[t]) + Thin(y, rs, counts, cap, t)
  {
    Launch(out, y, cap, counts, sorted);
    forall t | 0 <= t < out.Length ensures SlicesSum(y, sorted, counts, Fits(counts, cap), |counts|, t) == Thin(y, rs, counts, cap, t) {
      ThinAndOver(y, rs, sorted, counts, cap, out.Length, t);
    }
  }

  /** The buffers an over-full batch may need. */
  predicate Roomy<A, B>(out: array<real>, h13: array<A>, h2: array<B>, rows: nat) {
    && rows <= h13.Length && rows <= h2.Length
    && h13 as object != h2 as object && h13 as object != out as object && h2 as object != out as object
  }

  /** The over-full experts on the tier that `TierOf` picks (all but row tiles). */
  method FatTier<A, B>(out: array<real>, h13: array<A>, h2: array<B>,
                       pre: (nat, nat) -> A, mid: (nat, A) -> B, down: (nat, B) -> real,
                       c: Settings, n: nat, emap: Option<seq<int>>, looped: seq<Route>,
                       ghost rs: seq<Route>, counts: seq<nat>, sorted: seq<Route>)
    requires Ready(rs, sorted, counts, out.Length) && n == |counts| >= 1 && !TierOf(c).RowTiled?
    requires c.tileGu > 0 && c.tileDn > 0 && Roomy(out, h13, h2, |sorted|)
    requires (forall r :: r in looped ==> r.tok < out.Length) && MoeLoop.Located(looped, n, emap)
    modifies out, h13, h2
    ensures forall t :: 0 <= t < out.Length ==>
              out[t] == old(out[t]) + Over(Staged(pre, mid, down), if TierOf(c).Legacy? then looped else rs, counts, c.cap, t)
  {
    ghost var y := Staged(pre, mid, down);
    match TierOf(c) {
      case Grouped => GroupedFat(out, h13, h2, pre, mid, down, c.cap, counts, sorted, c.tileGu, c.tileDn);
      case Batched =>
        forall e | 0 <= e < |counts| ensures counts[e] <= h2.Length { RoomFor(counts, e); }
        BatchedFat(out, h2, Half(pre, mid), down, c.cap, counts, sorted);
      case Sorted => SortedFat(out, Staged(pre, mid, down), c.cap, counts, sorted);
      case Legacy => MoeLoop.PythonLoop(out, Staged(pre, mid, down), looped, n, emap, Not(Fits(counts, c.cap)));
      case RowTiled =>
    }
    forall t | 0 <= t < out.Length
      ensures SlicesSum(y, sorted, counts, Not(Fits(counts, c.cap)), |counts|, t) == Over(y, rs, counts, c.cap, t)
    {
      ThinAndOver(y, rs, sorted, counts, c.cap, out.Length, t);
    }
  }

  lemma RoomFor(counts: seq<nat>, e: nat)
    requires e < |counts|
    ensures counts[e] <= Off(counts, |counts|)
  {
    G.OffMonotone(counts, e + 1, |counts|);
  }

  /** What the dispatcher leaves in `out`. */
  function Outcome(y: Expert, c: Settings, tokens: nat, rs: seq<Route>, looped: seq<Route>, counts: seq<nat>, t: nat): real {
    if tokens <= c.cap then Thin(y, rs, counts, c.cap, t)
    else Thin(y, rs, counts, c.cap, t) + Over(y, if TierOf(c).Legacy? then looped else rs, counts, c.cap, t)
  }

  /** Past the decode path: the launches in the order the source issues them. */
  method Prefill<A, B>(out: array<real>, h13: array<A>, h2: array<B>,
                       pre: (nat, nat) -> A, mid: (nat, A) -> B, down: (nat, B) -> real,
                       c: Settings, n: nat, emap: Option<seq<int>>, looped: seq<Route>,
                       ghost rs: seq<Route>, counts: seq<nat>, sorted: seq<Route>)
    requires Ready(rs, sorted, counts, out.Length) && n == |counts| >= 1 && c.cap > 0
    requires c.tileGu > 0 && c.tileDn > 0 && Roomy(out, h13, h2, |sorted|)
    requires (forall r :: r in looped ==> r.tok < out.Length) && MoeLoop.Located(looped, n, emap)
    modifies out, h13, h2
    ensures forall t :: 0 <= t < out.Length ==>
              out[t] == old(out[t]) + Thin(Staged(pre, mid, down), rs, counts, c.cap, t)
                        + Over(Staged(pre, mid, down), if TierOf(c).Legacy? then looped else rs, counts, c.cap, t)
  {
    ghost var y := Staged(pre, mid, down);
    if TierOf(c).Grouped? {
      ThinLaunch(out, Staged(pre, mid, down), c.cap, rs, counts, sorted);
      FatTier(out, h13, h2, pre, mid, down, c, n, emap, looped, rs, counts, sorted);
      return;
    }
    var launched := TierOf(c).Batched?;
    if launched {
      ThinLaunch(out, Staged(pre, mid, down), c.cap, rs, counts, sorted);
    }
    var maxRows := MaxOf(counts);
    if maxRows <= c.cap {
      if !launched {
        ThinLaunch(out, Staged(pre, mid, down), c.cap, rs, counts, sorted);
      }
      forall t | 0 <= t < out.Length
        ensures Over(y, rs, counts, c.cap, t) == 0.0 && Over(y, looped, counts, c.cap, t) == 0.0
      {
        NothingOver(y, rs, counts, c.cap, t);
        NothingOver(y, looped, counts, c.cap, t);
      }
      return;
    }
    if c.rowTiles {
      RowTiles(out, Staged(pre, mid, down), counts, sorted, c.cap, maxRows);
      forall t | 0 <= t < out.Length
        ensures SlicesSum(y, sorted, counts, Always(), |counts|, t) == Thin(y, rs, counts, c.cap, t) + Over(y, rs, counts, c.cap, t)
      {
        ThinAndOver(y, rs, sorted, counts, c.cap, out.Length, t);
      }
      return;
    }
    if !launched {
      ThinLaunch(out, Staged(pre, mid, down), c.cap, rs, counts, sorted);
    }
    FatTier(out, h13, h2, pre, mid, down, c, n, emap, looped, rs, counts, sorted);
  }

  /** `apply_exl3_fused_moe`; `sorted` is any order `argsort` may return. */
  method FusedMoe<A, B>(batch: Batch, n: nat, emap: Option<seq<int>>, c: Settings, sorted: seq<Route>,
                        h13: array<A>, h2: array<B>,
                        pre: (nat, nat) -> A, mid: (nat, A) -> B, down: (nat, B) -> real)
    returns (out: array<real>, ghost counts: seq<nat>)
    requires n >= 1 && c.cap > 0 && c.tileGu > 0 && c.tileDn > 0
    requires IsSortOf(sorted, Routes(batch, Map(n, emap), |batch|))
    requires |sorted| <= h13.Length && |sorted| <= h2.Length && h13 as object != h2 as object
    modifies h13, h2
    ensures fresh(out) && out.Length == |batch|
    ensures |counts| == n && IsCounts(counts, Routes(batch, Map(n, emap), |batch|))
    ensures forall t :: 0 <= t < out.Length ==>
              out[t] == Outcome(Staged(pre, mid, down), c, |batch|, Routes(batch, Map(n, emap), |batch|),
                                Routes(batch, Loop(n, emap), |batch|), counts, t)
  {
    ghost var rs := Routes(batch, Map(n, emap), |batch|);
    var looped := Routes(batch, Loop(n, emap), |batch|);
    var buckets := CountExperts(Routes(batch, Map(n, emap), |batch|), n);
    var live := buckets[..n];
    counts := live;
    Readiness(rs, sorted, live, |batch|);
    out := new real[|batch|](_ => 0.0);
    if |batch| <= c.cap {
      ThinLaunch(out, Staged(pre, mid, down), c.cap, rs, live, sorted);
    } else {
      Prefill(out, h13, h2, pre, mid, down, c, n, emap, looped, rs, live, sorted);
    }
  }

  // ----- the legacy tier's own mapping -----

  /** The loop takes this id for an over-full local expert by position, the fused mapping
      gives it to nobody. */
  predicate StrayId(id: int, n: nat, emap: Option<seq<int>>, counts: seq<nat>, cap: nat) {
    emap.Some? && |emap.value| <= id < n && id < |counts| && counts[id] > cap
  }

  function Stray(n: nat, emap: Option<seq<int>>, counts: seq<nat>, cap: nat): Route -> bool {
    (r: Route) => StrayId(r.raw, n, emap, counts, cap)
  }

  /** No slot of the batch carries such an id. */
  predicate NoStrays(batch: Batch, n: nat, emap: Option<seq<int>>, counts: seq<nat>, cap: nat) {
    forall t, k :: 0 <= t < |batch| && 0 <= k < |batch[t]| ==> !StrayId(batch[t][k].raw, n, emap, counts, cap)
  }

  /** The same route under both mappings. */
  predicate Paired(a: Route, b: Route, over: Route -> bool, stray: Route -> bool) {
    if stray(b) then !over(a) && over(b) else over(a) == over(b) && (over(a) ==> a == b)
  }

  lemma {:induction false} StraysAreExtra(y: Expert, rs: seq<Route>, looped: seq<Route>, over: Route -> bool, stray: Route -> bool, t: nat)
    requires |rs| == |looped| && forall i :: 0 <= i < |rs| ==> Paired(rs[i], looped[i], over, stray)
    ensures SumIf(y, looped, over, t) == SumIf(y, rs, over, t) + SumIf(y, looped, stray, t)
  {
    if rs != [] {
      assert Paired(rs[0], looped[0], over, stray);
      forall i | 0 <= i < |rs[1..]| ensures Paired(rs[1..][i], looped[1..][i], over, stray) {
        assert Paired(rs[i + 1], looped[i + 1], over, stray);
      }
      StraysAreExtra(y, rs[1..], looped[1..], over, stray, t);
    }
  }

  /** Both mappings flatten a batch to the same slots. */
  predicate Alike(a: Route, b: Route, f: int -> nat, g: int -> nat) {
    a == Route(a.tok, a.wt, a.raw, f(a.raw)) && b == Route(a.tok, a.wt, a.raw, g(a.raw))
  }

  lemma {:induction false} RoutesAlike(batch: Batch, f: int -> nat, g: int -> nat, m: nat)
    requires m <= |batch|
    ensures |Routes(batch, f, m)| == |Routes(batch, g, m)|
    ensures forall i :: 0 <= i < |Routes(batch, f, m)| ==> Alike(Routes(batch, f, m)[i], Routes(batch, g, m)[i], f, g)
  {
    if m > 0 {
      RoutesAlike(batch, f, g, m - 1);
    }
  }

  /** The loop over the over-full experts adds what the fused mapping would, and the strays. */
  lemma LegacyAddsStrays(y: Expert, batch: Batch, n: nat, emap: Option<seq<int>>, counts: seq<nat>, cap: nat, t: nat)
    requires |counts| == n
    ensures var looped := Routes(batch, Loop(n, emap), |batch|);
            Over(y, looped, counts, cap, t)
            == Over(y, Routes(batch, Map(n, emap), |batch|), counts, cap, t) + SumIf(y, looped, Stray(n, emap, counts, cap), t)
  {
    var rs, looped := Routes(batch, Map(n, emap), |batch|), Routes(batch, Loop(n, emap), |batch|);
    var over, stray := BelowOn(n, Not(Fits(counts, cap))), Stray(n, emap, counts, cap);
    RoutesAlike(batch, Map(n, emap), Loop(n, emap), |batch|);
    forall i | 0 <= i < |rs| ensures Paired(rs[i], looped[i], over, stray) {
      assert Alike(rs[i], looped[i], Map(n, emap), Loop(n, emap));
      MappingsAgree(rs[i].raw, n, emap);
    }
    StraysAreExtra(y, rs, looped, over, stray, t);
  }

  lemma {:induction false} RoutesComeFromSlots(batch: Batch, local: int -> nat, m: nat, i: nat) returns (t: nat, k: nat)
    requires m <= |batch| && i < |Routes(batch, local, m)|
    ensures t < m && k < |batch[t]| && Routes(batch, local, m)[i].raw == batch[t][k].raw
  {
    var before := Routes(batch, local, m - 1);
    if i < |before| {
      t, k := RoutesComeFromSlots(batch, local, m - 1, i);
    } else {
      t, k := m - 1, i - |before|;
    }
  }

  lemma {:induction false} SlotsBecomeRoutes(batch: Batch, local: int -> nat, m: nat, t: nat, k: nat) returns (i: nat)
    requires t < m <= |batch| && k < |batch[t]|
    ensures i < |Routes(batch, local, m)|
    ensures Routes(batch, local, m)[i] == Route(t, batch[t][k].wt, batch[t][k].raw, local(batch[t][k].raw))
  {
    if t == m - 1 {
      i := |Routes(batch, local, m - 1)| + k;
    } else {
      i := SlotsBecomeRoutes(batch, local, m - 1, t, k);
    }
  }

  lemma NoStrayAdds(y: Expert, batch: Batch, n: nat, emap: Option<seq<int>>, counts: seq<nat>, cap: nat, t: nat)
    requires NoStrays(batch, n, emap, counts, cap)
    ensures SumIf(y, Routes(batch, Loop(n, emap), |batch|), Stray(n, emap, counts, cap), t) == 0.0
  {
    var looped := Routes(batch, Loop(n, emap), |batch|);
    forall r | r in looped ensures !Stray(n, emap, counts, cap)(r) {
      var i :| 0 <= i < |looped| && looped[i] == r;
      var u, k := RoutesComeFromSlots(batch, Loop(n, emap), |batch|, i);
    }
    SumIfNone(y, looped, Stray(n, emap, counts, cap), t);
  }

  /** Main theorem, prefill: whichever tier runs, every token gets the naive sum of its
      own slots. The legacy tier, which maps ids its own way, needs a batch without
      strays. */
  lemma PrefillIsNaive(y: Expert, batch: Batch, n: nat, emap: Option<seq<int>>, c: Settings, counts: seq<nat>, t: nat)
    requires |counts| == n && IsCounts(counts, Routes(batch, Map(n, emap), |batch|)) && t < |batch| && |batch| > c.cap
    requires TierOf(c).Legacy? ==> NoStrays(batch, n, emap, counts, c.cap)
    ensures Outcome(y, c, |batch|, Routes(batch, Map(n, emap), |batch|), Routes(batch, Loop(n, emap), |batch|), counts, t)
            == Naive(y, batch[t], Map(n, emap), n, t)
  {
    var rs := Routes(batch, Map(n, emap), |batch|);
    if TierOf(c).Legacy? {
      LegacyAddsStrays(y, batch, n, emap, counts, c.cap, t);
      NoStrayAdds(y, batch, n, emap, counts, c.cap, t);
    }
    SumIfSplit(y, rs, BelowOn(n, Fits(counts, c.cap)), BelowOn(n, Not(Fits(counts, c.cap))), Below(n), t);
    RoutesSum(y, batch, Map(n, emap), n, |batch|, t);
  }

  /** The decode launch misses exactly the experts with more routes than temporaries. */
  lemma DecodeShortfall(y: Expert, batch: Batch, n: nat, emap: Option<seq<int>>, c: Settings, counts: seq<nat>, t: nat)
    requires |counts| == n && IsCounts(counts, Routes(batch, Map(n, emap), |batch|)) && t < |batch| <= c.cap
    ensures Outcome(y, c, |batch|, Routes(batch, Map(n, emap), |batch|), Routes(batch, Loop(n, emap), |batch|), counts, t)
            == Naive(y, batch[t], Map(n, emap), n, t) - Over(y, Routes(batch, Map(n, emap), |batch|), counts, c.cap, t)
  {
    var rs := Routes(batch, Map(n, emap), |batch|);
    SumIfSplit(y, rs, BelowOn(n, Fits(counts, c.cap)), BelowOn(n, Not(Fits(counts, c.cap))), Below(n), t);
    RoutesSum(y, batch, Map(n, emap), n, |batch|, t);
  }

  /** An expert that answers 1 for token `t0` and 0 otherwise. */
  function Probe(e0: nat, t0: nat): Expert { (e: nat, t: nat) => if e == e0 && t == t0 then 1.0 else 0.0 }

  lemma {:induction false} ProbeSeesRoute(rs: seq<Route>, counts: seq<nat>, cap: nat, e0: nat, t0: nat, i: nat)
    requires (forall r :: r in rs ==> r.wt > 0.0) && e0 < |counts| && counts[e0] > cap
    ensures Over(Probe(e0, t0), rs, counts, cap, t0) >= 0.0
    ensures i < |rs| && rs[i].loc == e0 && rs[i].tok == t0 ==> Over(Probe(e0, t0), rs, counts, cap, t0) > 0.0
  {
    if rs != [] {
      assert rs[0] in rs;
      if i > 0 {
        ProbeSeesRoute(rs[1..], counts, cap, e0, t0, i - 1);
      } else {
        ProbeSeesRoute(rs[1..], counts, cap, e0, t0, 0);
      }
    }
  }

  lemma {:induction false} CountWitness(rs: seq<Route>, e: nat) returns (i: nat)
    requires Count(rs, e) > 0
    ensures i < |rs| && rs[i].loc == e
  {
    if rs[0].loc == e {
      i := 0;
    } else {
      i := CountWitness(rs[1..], e);
      i := i + 1;
    }
  }

  lemma {:induction false} ProbeSeesStray(rs: seq<Route>, sel: Route -> bool, e0: nat, t0: nat, i: nat)
    requires forall r :: r in rs ==> r.wt > 0.0
    ensures SumIf(Probe(e0, t0), rs, sel, t0) >= 0.0
    ensures i < |rs| && sel(rs[i]) && rs[i].loc == e0 && rs[i].tok == t0 ==> SumIf(Probe(e0, t0), rs, sel, t0) > 0.0
  {
    if rs != [] {
      assert rs[0] in rs;
      ProbeSeesStray(rs[1..], sel, e0, t0, if i > 0 then i - 1 else 0);
    }
  }

  /** What the dispatcher leaves in token `t` of a batch. */
  function Output(y: Expert, batch: Batch, n: nat, emap: Option<seq<int>>, c: Settings, counts: seq<nat>, t: nat): real {
    Outcome(y, c, |batch|, Routes(batch, Map(n, emap), |batch|), Routes(batch, Loop(n, emap), |batch|), counts, t)
  }

  lemma LegacyExcess(y: Expert, batch: Batch, n: nat, emap: Option<seq<int>>, c: Settings, counts: seq<nat>, t: nat)
    requires |counts| == n && t < |batch| && TierOf(c).Legacy? && |batch| > c.cap
    ensures Output(y, batch, n, emap, c, counts, t)
            == Naive(y, batch[t], Map(n, emap), n, t) + SumIf(y, Routes(batch, Loop(n, emap), |batch|), Stray(n, emap, counts, c.cap), t)
  {
    var rs := Routes(batch, Map(n, emap), |batch|);
    LegacyAddsStrays(y, batch, n, emap, counts, c.cap, t);
    SumIfSplit(y, rs, BelowOn(n, Fits(counts, c.cap)), BelowOn(n, Not(Fits(counts, c.cap))), Below(n), t);
    RoutesSum(y, batch, Map(n, emap), n, |batch|, t);
  }

  /** A stray slot shows in its own token, for some expert function. */
  lemma StrayShows(batch: Batch, n: nat, emap: Option<seq<int>>, c: Settings, counts: seq<nat>) returns (y: Expert, t: nat)
    requires |counts| == n && TierOf(c).Legacy? && |batch| > c.cap && !NoStrays(batch, n, emap, counts, c.cap)
    requires forall r :: r in Routes(batch, Loop(n, emap), |batch|) ==> r.wt > 0.0
    ensures t < |batch| && Output(y, batch, n, emap, c, counts, t) > Naive(y, batch[t], Map(n, emap), n, t)
  {
    var k;
    t, k :| 0 <= t < |batch| && 0 <= k < |batch[t]| && StrayId(batch[t][k].raw, n, emap, counts, c.cap);
    var i := SlotsBecomeRoutes(batch, Loop(n, emap), |batch|, t, k);
    y := Probe(batch[t][k].raw, t);
    ProbeSeesStray(Routes(batch, Loop(n, emap), |batch|), Stray(n, emap, counts, c.cap), batch[t][k].raw, t, i);
    LegacyExcess(y, batch, n, emap, c, counts, t);
  }

  /** With positive routing weights the legacy tier is right for every expert function
      exactly when no slot names an over-full expert past the end of the expert map. */
  lemma LegacyExactWhen(batch: Batch, n: nat, emap: Option<seq<int>>, c: Settings, counts: seq<nat>)
    requires |counts| == n && TierOf(c).Legacy? && |batch| > c.cap
    requires forall r :: r in Routes(batch, Loop(n, emap), |batch|) ==> r.wt > 0.0
    ensures NoStrays(batch, n, emap, counts, c.cap)
            <==> forall y: Expert, t: nat :: t < |batch| ==>
                   Output(y, batch, n, emap, c, counts, t) == Naive(y, batch[t], Map(n, emap), n, t)
  {
    if NoStrays(batch, n, emap, counts, c.cap) {
      forall y: Expert, t: nat | t < |batch|
        ensures Output(y, batch, n, emap, c, counts, t) == Naive(y, batch[t], Map(n, emap), n, t)
      {
        LegacyExcess(y, batch, n, emap, c, counts, t);
        NoStrayAdds(y, batch, n, emap, counts, c.cap, t);
      }
    } else {
      var y, t := StrayShows(batch, n, emap, c, counts);
    }
  }

  /** An expert map with an entry for every expert, as the server passes it, has no strays. */
  lemma FullMapHasNoStrays(batch: Batch, n: nat, emap: Option<seq<int>>, counts: seq<nat>, cap: nat)
    requires emap.Some? ==> |emap.value| >= n
    ensures NoStrays(batch, n, emap, counts, cap)
  {
  }

  /** With positive routing weights the decode launch is right for every expert function
      exactly when no local expert has more routes than the temporaries hold. */
  lemma DecodeExactWhen(rs: seq<Route>, counts: seq<nat>, cap: nat)
    requires IsCounts(counts, rs) && forall r :: r in rs ==> r.wt > 0.0
    ensures (forall e :: 0 <= e < |counts| ==> counts[e] <= cap) <==> (forall y: Expert, t: nat :: Over(y, rs, counts, cap, t) == 0.0)
  {
    if forall e :: 0 <= e < |counts| ==> counts[e] <= cap {
      forall y: Expert, t: nat ensures Over(y, rs, counts, cap, t) == 0.0 { NothingOver(y, rs, counts, cap, t); }
    } else {
      var e :| 0 <= e < |counts| && counts[e] > cap;
      var i := CountWitness(rs, e);
      ProbeSeesRoute(rs, counts, cap, e, rs[i].tok, i);
      assert Over(Probe(e, rs[i].tok), rs, counts, cap, rs[i].tok) != 0.0;
    }
  }

  /** Distinct local experts within each token. */
  predicate DistinctLocals(batch: Batch, local: int -> nat, n: nat) {
    forall t :: 0 <= t < |batch| ==> DistinctSlots(batch[t], local, n)
  }

  predicate DistinctSlots(slots: seq<Slot>, local: int -> nat, n: nat) {
    forall i, j :: 0 <= i < j < |slots| && local(slots[i].raw) < n ==> local(slots[i].raw) != local(slots[j].raw)
  }

  lemma {:induction false} SlotsOnce(slots: seq<Slot>, local: int -> nat, n: nat, t0: nat, e: nat)
    requires DistinctSlots(slots, local, n) && e < n
    ensures Count(TokenRoutes(slots, local, t0), e) <= 1
    ensures (forall i :: 0 <= i < |slots| ==> local(slots[i].raw) != e) ==> Count(TokenRoutes(slots, local, t0), e) == 0
  {
    if slots != [] {
      var rest := slots[1..];
      forall i, j | 0 <= i < j < |rest| && local(rest[i].raw) < n ensures local(rest[i].raw) != local(rest[j].raw) {
        assert rest[i] == slots[i + 1] && rest[j] == slots[j + 1];
      }
      assert TokenRoutes(slots, local, t0)[1..] == TokenRoutes(rest, local, t0);
      assert forall i :: 0 <= i < |rest| ==> rest[i] == slots[i + 1];
      SlotsOnce(rest, local, n, t0, e);
    }
  }

  lemma OneToken(batch: Batch, local: int -> nat, n: nat, m: nat, e: nat)
    requires 0 < m <= |batch| && DistinctSlots(batch[m - 1], local, n) && e < n
    ensures Count(Routes(batch, local, m), e) <= Count(Routes(batch, local, m - 1), e) + 1
  {
    SlotsOnce(batch[m - 1], local, n, m - 1, e);
    CountConcat(Routes(batch, local, m - 1), TokenRoutes(batch[m - 1], local, m - 1), e);
  }

  /** A top-k with distinct local experts never routes an expert more often than there
      are tokens, so the decode launch skips nobody. */
  lemma {:induction false} CountAtMostTokens(batch: Batch, local: int -> nat, n: nat, m: nat, e: nat)
    requires m <= |batch| && DistinctLocals(batch, local, n) && e < n
    ensures Count(Routes(batch, local, m), e) <= m
  {
    if m > 0 {
      CountAtMostTokens(batch, local, n, m - 1, e);
      OneToken(batch, local, n, m, e);
    }
  }

  /** Main theorem, decode. */
  lemma DecodeIsNaive(y: Expert, batch: Batch, n: nat, emap: Option<seq<int>>, c: Settings, counts: seq<nat>, t: nat)
    requires |counts| == n && IsCounts(counts, Routes(batch, Map(n, emap), |batch|)) && t < |batch| <= c.cap
    requires DistinctLocals(batch, Map(n, emap), n)
    ensures Outcome(y, c, |batch|, Routes(batch, Map(n, emap), |batch|), Routes(batch, Loop(n, emap), |batch|), counts, t)
            == Naive(y, batch[t], Map(n, emap), n, t)
  {
    forall e | 0 <= e < |counts| ensures counts[e] <= c.cap {
      CountAtMostTokens(batch, Map(n, emap), n, |batch|, e);
    }
    DecodeShortfall(y, batch, n, emap, c, counts, t);
    NothingOver(y, Routes(batch, Map(n, emap), |batch|), counts, c.cap, t);
  }

  /** Ids of one token that differ, through a map that sends no two experts to one, name
      distinct local experts: what a top-k router and expert placement give. */
  lemma RoutersAreDistinct(batch: Batch, n: nat, emap: Option<seq<int>>)
    requires forall t :: 0 <= t < |batch| ==> forall i, j :: 0 <= i < j < |batch[t]| ==> batch[t][i].raw != batch[t][j].raw
    requires emap.Some? ==> forall a, b :: 0 <= a < b < |emap.value| && 0 <= emap.value[a] < n ==> emap.value[a] != emap.value[b]
    ensures DistinctLocals(batch, Map(n, emap), n)
  {
    forall t | 0 <= t < |batch| ensures DistinctSlots(batch[t], Map(n, emap), n) {
      var s := batch[t];
      forall i, j | 0 <= i < j < |s| && MapLocal(s[i].raw, n, emap) < n ensures MapLocal(s[i].raw, n, emap) != MapLocal(s[j].raw, n, emap) {
        assert s[i].raw != s[j].raw;
      }
    }
  }

  /** One token naming expert 0 twice overflows a one-row temporary: the decode launch
      then drops both contributions. */
  lemma RepeatedExpertIsDropped()
    ensures var rs := Routes([[Slot(0, 1.0), Slot(0, 1.0)]], Map(1, None), 1);
            Count(rs, 0) == 2 && Over((e: nat, t: nat) => 1.0, rs, [2], 1, 0) == 2.0
  {
    var slots := [Slot(0, 1.0), Slot(0, 1.0)];
    var a, b := Route(0, 1.0, 0, 0), Route(0, 1.0, 0, 0);
    assert Routes([slots], Map(1, None), 0) == [];
    assert Routes([slots], Map(1, None), 1) == [a, b];
    assert [a, b][1..] == [b] && [b][1..] == [];
  }

  /** Where the expert map covers the batch, the loop over all experts gives each token
      the naive sum, as the fused path does. */
  lemma LoopIsNaive(y: Expert, batch: Batch, n: nat, emap: Option<seq<int>>, t: nat)
    requires MapCovers(batch, n, emap) && t < |batch|
    ensures SumIf(y, Routes(batch, Loop(n, emap), |batch|), BelowOn(n, Always()), t) == Naive(y, batch[t], Map(n, emap), n, t)
  {
    SameRoutes(batch, n, emap, |batch|);
    var rs := Routes(batch, Map(n, emap), |batch|);
    SumIfSame(y, rs, BelowOn(n, Always()), Below(n), t);
    RoutesSum(y, batch, Map(n, emap), n, |batch|, t);
  }

  /** Counts under which every expert is over-full at no temporaries. */
  function Ones(n: nat): (s: seq<nat>)
    ensures |s| == n && forall e :: 0 <= e < n ==> s[e] == 1
  {
    seq(n, _ => 1)
  }

  /** For any expert map the loop over all experts adds, beside the naive sum, every slot
      whose id lies past the map and is a local position. */
  lemma LoopAddsStrays(y: Expert, batch: Batch, n: nat, emap: Option<seq<int>>, t: nat)
    requires t < |batch|
    ensures SumIf(y, Routes(batch, Loop(n, emap), |batch|), BelowOn(n, Always()), t)
            == Naive(y, batch[t], Map(n, emap), n, t) + SumIf(y, Routes(batch, Loop(n, emap), |batch|), Stray(n, emap, Ones(n), 0), t)
  {
    var rs, looped := Routes(batch, Map(n, emap), |batch|), Routes(batch, Loop(n, emap), |batch|);
    LegacyAddsStrays(y, batch, n, emap, Ones(n), 0, t);
    SumIfSame(y, looped, BelowOn(n, Always()), BelowOn(n, Not(Fits(Ones(n), 0))), t);
    SumIfSame(y, rs, BelowOn(n, Not(Fits(Ones(n), 0))), Below(n), t);
    RoutesSum(y, batch, Map(n, emap), n, |batch|, t);
  }

  /** Main theorem: with positive weights the loop over all experts gives every token the
      naive sum, for every expert function, exactly when no id of the batch lies past the
      expert map while naming a local expert by position. */
  lemma LoopExactWhen(batch: Batch, n: nat, emap: Option<seq<int>>)
    requires forall r :: r in Routes(batch, Loop(n, emap), |batch|) ==> r.wt > 0.0
    ensures MapCovers(batch, n, emap)
            <==> forall y: Expert, t: nat :: t < |batch| ==>
                   SumIf(y, Routes(batch, Loop(n, emap), |batch|), BelowOn(n, Always()), t) == Naive(y, batch[t], Map(n, emap), n, t)
  {
    if MapCovers(batch, n, emap) {
      forall y: Expert, t: nat | t < |batch|
        ensures SumIf(y, Routes(batch, Loop(n, emap), |batch|), BelowOn(n, Always()), t) == Naive(y, batch[t], Map(n, emap), n, t)
      {
        LoopIsNaive(y, batch, n, emap, t);
      }
    } else {
      var y, t := LoopStrayShows(batch, n, emap);
    }
  }

  lemma UncoveredIsStray(batch: Batch, n: nat, emap: Option<seq<int>>)
    requires NoStrays(batch, n, emap, Ones(n), 0)
    ensures MapCovers(batch, n, emap)
  {
    forall slots, s | slots in batch && s in slots ensures !(emap.Some? && |emap.value| <= s.raw < n) {
      var t :| 0 <= t < |batch| && batch[t] == slots;
      var k :| 0 <= k < |slots| && slots[k] == s;
      assert !StrayId(batch[t][k].raw, n, emap, Ones(n), 0);
    }
  }

  lemma LoopStrayShows(batch: Batch, n: nat, emap: Option<seq<int>>) returns (y: Expert, t: nat)
    requires !MapCovers(batch, n, emap) && forall r :: r in Routes(batch, Loop(n, emap), |batch|) ==> r.wt > 0.0
    ensures t < |batch|
    ensures SumIf(y, Routes(batch, Loop(n, emap), |batch|), BelowOn(n, Always()), t) > Naive(y, batch[t], Map(n, emap), n, t)
  {
    if NoStrays(batch, n, emap, Ones(n), 0) {
      UncoveredIsStray(batch, n, emap);
      assert false;
    }
    var k;
    t, k :| 0 <= t < |batch| && 0 <= k < |batch[t]| && StrayId(batch[t][k].raw, n, emap, Ones(n), 0);
    var i := SlotsBecomeRoutes(batch, Loop(n, emap), |batch|, t, k);
    y := Probe(batch[t][k].raw, t);
    ProbeSeesStray(Routes(batch, Loop(n, emap), |batch|), Stray(n, emap, Ones(n), 0), batch[t][k].raw, t, i);
    LoopAddsStrays(y, batch, n, emap, t);
  }
}
