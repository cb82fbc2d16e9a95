/** The row-tile tier of overlay/exl3.py: the over-full launch cut into slices of at most
    `tile` rows per expert, so the fused kernel never skips an expert. */
module MoeRowTiles {
  import opened Common
  import opened MoeRoutes
  import opened MoeTiers
  import G = GroupedTables
  import Arith

  function Always(): nat -> bool { (e: nat) => true }

  function TileCounts(counts: seq<nat>, row0: nat, tile: nat): (tc: seq<nat>)
    ensures |tc| == |counts| && forall e :: 0 <= e < |tc| ==> tc[e] == G.Clamp(counts[e] - row0, 0, tile)
  {
    seq(|counts|, e requires 0 <= e < |counts| => G.Clamp(counts[e] - row0, 0, tile))
  }

  /** A tile never asks for more rows than its expert has left. */
  predicate Within(tc: seq<nat>, counts: seq<nat>, row0: nat) {
    |tc| == |counts| && forall e :: 0 <= e < |tc| ==> tc[e] > 0 ==> row0 + tc[e] <= counts[e]
  }

  /** Sorted position of the tile's row `i`. */
  function Source(counts: seq<nat>, tc: seq<nat>, row0: nat, i: nat): (p: nat)
    requires Within(tc, counts, row0) && i < Off(tc, |tc|)
    ensures p < Off(counts, |counts|)
  {
    var e := G.Search(tc, i, 0);
    G.OffMonotone(counts, e + 1, |counts|);
    Off(counts, e) + row0 + (i - Off(tc, e))
  }

  predicate Gathered(g: seq<Route>, sorted: seq<Route>, counts: seq<nat>, tc: seq<nat>, row0: nat, i: nat)
    requires Within(tc, counts, row0) && i < Off(tc, |tc|) && Off(counts, |counts|) <= |sorted|
  {
    i < |g| && g[i] == sorted[Source(counts, tc, row0, i)]
  }

  ghost predicate IsGather(g: seq<Route>, sorted: seq<Route>, counts: seq<nat>, tc: seq<nat>, row0: nat)
    requires Within(tc, counts, row0) && Off(counts, |counts|) <= |sorted|
  {
    |g| == Off(tc, |tc|) && forall i :: 0 <= i < |g| ==> Gathered(g, sorted, counts, tc, row0, i)
  }

  function Gather(sorted: seq<Route>, counts: seq<nat>, tc: seq<nat>, row0: nat): (g: seq<Route>)
    requires Within(tc, counts, row0) && Off(counts, |counts|) <= |sorted|
    ensures IsGather(g, sorted, counts, tc, row0)
  {
    seq(Off(tc, |tc|), i requires 0 <= i < Off(tc, |tc|) => sorted[Source(counts, tc, row0, i)])
  }

  /** How many of expert `e`'s rows the tiles before `row` have covered. */
  function Done(counts: seq<nat>, e: nat, row: nat): nat
    requires e < |counts|
  {
    Min(counts[e], row)
  }

  function Head(sorted: seq<Route>, counts: seq<nat>, e: nat, row: nat): (h: seq<Route>)
    requires e < |counts| && Off(counts, |counts|) <= |sorted|
    ensures |h| == Done(counts, e, row) && Off(counts, e) + |h| <= |sorted|
    ensures forall j :: 0 <= j < |h| ==> h[j] == sorted[Off(counts, e) + j]
  {
    G.OffMonotone(counts, e + 1, |counts|);
    sorted[Off(counts, e)..Off(counts, e) + Done(counts, e, row)]
  }

  function TileSliceOf(g: seq<Route>, tc: seq<nat>, e: nat): (s: seq<Route>)
    requires e < |tc| && Off(tc, |tc|) <= |g|
    ensures |s| == tc[e] && Off(tc, e) + |s| <= |g|
    ensures forall j :: 0 <= j < |s| ==> s[j] == g[Off(tc, e) + j]
  {
    G.OffMonotone(tc, e + 1, |tc|);
    g[Off(tc, e)..Off(tc, e + 1)]
  }

  lemma GatheredRow(sorted: seq<Route>, counts: seq<nat>, tc: seq<nat>, row0: nat, g: seq<Route>, e: nat, j: nat)
    requires Within(tc, counts, row0) && Off(counts, |counts|) <= |sorted| && IsGather(g, sorted, counts, tc, row0)
    requires e < |tc| && j < tc[e]
    ensures Off(tc, e) + j < |g| && Off(counts, e) + row0 + j < |sorted|
    ensures g[Off(tc, e) + j] == sorted[Off(counts, e) + row0 + j]
  {
    G.OffMonotone(tc, e + 1, |tc|);
    G.OffMonotone(counts, e + 1, |counts|);
    G.SearchUnique(tc, Off(tc, e) + j, e);
    assert Gathered(g, sorted, counts, tc, row0, Off(tc, e) + j);
  }

  lemma DoneStep(counts: seq<nat>, row0: nat, tile: nat, e: nat)
    requires e < |counts|
    ensures var more := TileCounts(counts, row0, tile)[e];
            && Done(counts, e, row0 + tile) == Done(counts, e, row0) + more
            && (more > 0 ==> Done(counts, e, row0) == row0)
  {
  }

  lemma SameRows<T>(whole: seq<T>, a: seq<T>, b: seq<T>)
    requires |whole| == |a| + |b|
    requires forall j :: 0 <= j < |a| ==> whole[j] == a[j]
    requires forall j :: 0 <= j < |b| ==> whole[|a| + j] == b[j]
    ensures whole == a + b
  {
    assert forall j :: 0 <= j < |whole| ==> whole[j] == (a + b)[j];
  }

  /** The rows a tile holds for expert `e` are its rows from `row0` on. */
  predicate HoldsRows(slice: seq<Route>, sorted: seq<Route>, from: nat) {
    |slice| > 0 ==> from + |slice| <= |sorted| && slice == sorted[from..from + |slice|]
  }

  lemma GatheredSlice(sorted: seq<Route>, counts: seq<nat>, tc: seq<nat>, row0: nat, g: seq<Route>, e: nat)
    requires Within(tc, counts, row0) && Off(counts, |counts|) <= |sorted| && IsGather(g, sorted, counts, tc, row0)
    requires e < |tc|
    ensures HoldsRows(TileSliceOf(g, tc, e), sorted, Off(counts, e) + row0)
  {
    var slice := TileSliceOf(g, tc, e);
    if |slice| > 0 {
      var from := Off(counts, e) + row0;
      GatheredRow(sorted, counts, tc, row0, g, e, |slice| - 1);
      forall j | 0 <= j < |slice| ensures slice[j] == sorted[from + j] {
        GatheredRow(sorted, counts, tc, row0, g, e, j);
      }
      assert slice == sorted[from..from + |slice|];
    }
  }

  /** Each tile hands expert `e` exactly its next rows. */
  lemma TileExtendsHead(sorted: seq<Route>, counts: seq<nat>, row0: nat, tile: nat, slice: seq<Route>, e: nat)
    requires Off(counts, |counts|) <= |sorted| && e < |counts| && |slice| == TileCounts(counts, row0, tile)[e]
    requires HoldsRows(slice, sorted, Off(counts, e) + row0)
    ensures Head(sorted, counts, e, row0 + tile) == Head(sorted, counts, e, row0) + slice
  {
    DoneStep(counts, row0, tile, e);
    SameRows(Head(sorted, counts, e, row0 + tile), Head(sorted, counts, e, row0), slice);
  }

  /** The first `row` rows of every expert below `k`. */
  function HeadsSum(y: Expert, sorted: seq<Route>, counts: seq<nat>, row: nat, k: nat, t: nat): real
    requires k <= |counts| && Off(counts, |counts|) <= |sorted|
  {
    if k == 0 then 0.0
    else HeadsSum(y, sorted, counts, row, k - 1, t) + RowsSum(y, Head(sorted, counts, k - 1, row), k - 1, t)
  }

  predicate Extends(sorted: seq<Route>, counts: seq<nat>, tc: seq<nat>, row0: nat, tile: nat, g: seq<Route>, e: nat) {
    && e < |counts| == |tc| && Off(counts, |counts|) <= |sorted| && Off(tc, |tc|) == |g| && tc[e] <= tile
    && Head(sorted, counts, e, row0 + tile) == Head(sorted, counts, e, row0) + TileSliceOf(g, tc, e)
  }

  predicate Tiled(sorted: seq<Route>, counts: seq<nat>, tc: seq<nat>, row0: nat, tile: nat, g: seq<Route>) {
    && |tc| == |counts| && Off(counts, |counts|) <= |sorted| && Off(tc, |tc|) == |g|
    && forall e :: 0 <= e < |tc| ==> Extends(sorted, counts, tc, row0, tile, g, e)
  }

  lemma SlicesSumStep(y: Expert, g: seq<Route>, tc: seq<nat>, on: nat -> bool, k: nat, t: nat)
    requires 0 < k <= |tc| && Off(tc, |tc|) <= |g| && on(k - 1)
    ensures SlicesSum(y, g, tc, on, k, t) == SlicesSum(y, g, tc, on, k - 1, t) + RowsSum(y, TileSliceOf(g, tc, k - 1), k - 1, t)
  {
  }

  /** One tile extends every expert's processed head by at most `tile` rows. */
  lemma {:induction false} TileStep(y: Expert, sorted: seq<Route>, counts: seq<nat>, tc: seq<nat>, row0: nat, tile: nat, g: seq<Route>, k: nat, t: nat)
    requires k <= |counts| && Tiled(sorted, counts, tc, row0, tile, g)
    ensures HeadsSum(y, sorted, counts, row0 + tile, k, t)
            == HeadsSum(y, sorted, counts, row0, k, t) + SlicesSum(y, g, tc, Fits(tc, tile), k, t)
  {
    if k > 0 {
      TileStep(y, sorted, counts, tc, row0, tile, g, k - 1, t);
      RowsSumConcat(y, Head(sorted, counts, k - 1, row0), TileSliceOf(g, tc, k - 1), k - 1, t);
      assert Extends(sorted, counts, tc, row0, tile, g, k - 1);
      assert Fits(tc, tile)(k - 1);
      SlicesSumStep(y, g, tc, Fits(tc, tile), k, t);
    }
  }

  lemma {:induction false} HeadsOfNothing(y: Expert, sorted: seq<Route>, counts: seq<nat>, k: nat, t: nat)
    requires k <= |counts| && Off(counts, |counts|) <= |sorted|
    ensures HeadsSum(y, sorted, counts, 0, k, t) == 0.0
  {
    if k > 0 {
      HeadsOfNothing(y, sorted, counts, k - 1, t);
      assert Head(sorted, counts, k - 1, 0) == [];
    }
  }

  lemma {:induction false} HeadsOfAll(y: Expert, sorted: seq<Route>, counts: seq<nat>, row: nat, k: nat, t: nat)
    requires k <= |counts| && Off(counts, |counts|) <= |sorted| && forall e :: 0 <= e < |counts| ==> counts[e] <= row
    ensures HeadsSum(y, sorted, counts, row, k, t) == SlicesSum(y, sorted, counts, Always(), k, t)
  {
    if k > 0 {
      HeadsOfAll(y, sorted, counts, row, k - 1, t);
      SlicesSumStep(y, sorted, counts, Always(), k, t);
    }
  }

  /** An empty tile adds nothing, so skipping its launch is sound. */
  lemma {:induction false} EmptyTile(y: Expert, g: seq<Route>, tc: seq<nat>, on: nat -> bool, k: nat, t: nat)
    requires k <= |tc| && Off(tc, |tc|) == 0 <= |g|
    ensures SlicesSum(y, g, tc, on, k, t) == 0.0
  {
    if k > 0 {
      G.OffMonotone(tc, k, |tc|);
      G.OffMonotone(tc, k - 1, k);
      EmptyTile(y, g, tc, on, k - 1, t);
    }
  }

  /** `_exl3_moe_row_tiles`. */
  method RowTiles(out: array<real>, y: Expert, counts: seq<nat>, sorted: seq<Route>, tile: nat, maxRows: nat)
    requires tile > 0 && Off(counts, |counts|) <= |sorted| && (forall r :: r in sorted ==> r.tok < out.Length)
    requires forall e :: 0 <= e < |counts| ==> counts[e] <= maxRows
    modifies out
    ensures forall t :: 0 <= t < out.Length ==> out[t] == old(out[t]) + SlicesSum(y, sorted, counts, Always(), |counts|, t)
  {
    var nTiles := (maxRows + tile - 1) / tile;
    Arith.DivMulBounds(maxRows + tile - 1, tile);
    forall t | 0 <= t < out.Length ensures HeadsSum(y, sorted, counts, 0, |counts|, t) == 0.0 {
      HeadsOfNothing(y, sorted, counts, |counts|, t);
    }
    var i := 0;
    while i < nTiles
      invariant 0 <= i <= nTiles
      invariant forall t :: 0 <= t < out.Length ==> out[t] == old(out[t]) + HeadsSum(y, sorted, counts, i * tile, |counts|, t)
    {
      var row0 := i * tile;
      OneTile(out, y, counts, sorted, tile, row0);
      Arith.OneMore(i, tile);
      i := i + 1;
    }
    forall t | 0 <= t < out.Length ensures HeadsSum(y, sorted, counts, nTiles * tile, |counts|, t) == SlicesSum(y, sorted, counts, Always(), |counts|, t) {
      HeadsOfAll(y, sorted, counts, nTiles * tile, |counts|, t);
    }
  }

  method OneTile(out: array<real>, y: Expert, counts: seq<nat>, sorted: seq<Route>, tile: nat, row0: nat)
    requires Off(counts, |counts|) <= |sorted| && forall r :: r in sorted ==> r.tok < out.Length
    modifies out
    ensures forall t :: 0 <= t < out.Length ==>
              out[t] == old(out[t]) + HeadsSum(y, sorted, counts, row0 + tile, |counts|, t) - HeadsSum(y, sorted, counts, row0, |counts|, t)
  {
    var tc := TileCounts(counts, row0, tile);
    var g := Gather(sorted, counts, tc, row0);
    forall e | 0 <= e < |tc| ensures Extends(sorted, counts, tc, row0, tile, g, e) {
      GatheredSlice(sorted, counts, tc, row0, g, e);
      TileExtendsHead(sorted, counts, row0, tile, TileSliceOf(g, tc, e), e);
    }
    forall t | 0 <= t < out.Length
      ensures HeadsSum(y, sorted, counts, row0 + tile, |counts|, t)
              == HeadsSum(y, sorted, counts, row0, |counts|, t) + SlicesSum(y, g, tc, Fits(tc, tile), |tc|, t)
    {
      TileStep(y, sorted, counts, tc, row0, tile, g, |counts|, t);
    }
    if Off(tc, |tc|) == 0 {
      forall t | 0 <= t < out.Length ensures SlicesSum(y, g, tc, Fits(tc, tile), |tc|, t) == 0.0 {
        EmptyTile(y, g, tc, Fits(tc, tile), |tc|, t);
      }
    } else {
      Launch(out, y, tile, tc, g);
    }
  }
}
