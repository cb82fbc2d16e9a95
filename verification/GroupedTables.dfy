/** The device-side tables of the grouped fat tier (overlay/exl3.py,
    build_grouped_fat_tables): prefix sums and right-sided searches that cut the rows of
    the over-full experts into segments. */
module GroupedTables {
  import opened Common
  import opened MoeRoutes
  import Arith

  /** `searchsorted(cumsum(x), v, right=True)`: the first index whose inclusive prefix
      sum exceeds `v`, or the length. */
  function Search(x: seq<nat>, v: nat, i: nat): (r: nat)
    requires i <= |x| && Off(x, i) <= v
    ensures i <= r <= |x|
    ensures r < |x| ==> Off(x, r) <= v < Off(x, r + 1)
    ensures r == |x| ==> Off(x, |x|) <= v
    decreases |x| - i
  {
    if i == |x| || Off(x, i + 1) > v then i else Search(x, v, i + 1)
  }

  function FatRows(counts: seq<nat>, cap: nat): (f: seq<nat>)
    ensures |f| == |counts|
  {
    seq(|counts|, i requires 0 <= i < |counts| => if counts[i] > cap then counts[i] else 0)
  }

  function Tiles(fat: seq<nat>, tile: nat): (x: seq<nat>)
    requires tile > 0
    ensures |x| == |fat|
  {
    seq(|fat|, i requires 0 <= i < |fat| => (fat[i] + (tile - 1)) / tile)
  }

  /** One entry per kernel block: its expert, first fat row and number of rows. */
  datatype Segments = Segments(expert: seq<nat>, row0: seq<nat>, rows: seq<nat>, num: nat)

  /** One entry per fat row: its expert and its position in the sorted route order. */
  datatype Rows = Rows(expert: seq<nat>, src: seq<nat>, num: nat)

  function Clamp(x: int, lo: int, hi: int): int { Max(lo, Min(x, hi)) }

  /** The segment's expert, clamped to the last one for padding segments. */
  function SegExpert(tiles: seq<nat>, s: nat): nat
    requires |tiles| >= 1
  {
    Min(Search(tiles, s, 0), |tiles| - 1)
  }

  lemma {:induction false} OffMonotone(x: seq<nat>, i: nat, j: nat)
    requires i <= j <= |x|
    ensures Off(x, i) <= Off(x, j)
  {
    if i < j {
      OffMonotone(x, i, j - 1);
    }
  }

  lemma SegExpertStart(tiles: seq<nat>, s: nat)
    requires |tiles| >= 1
    ensures SegExpert(tiles, s) < |tiles| && Off(tiles, SegExpert(tiles, s)) <= s
  {
    OffMonotone(tiles, |tiles| - 1, |tiles|);
  }

  /** First row of segment `s` in the fat-row buffer. */
  function SegRow0(fat: seq<nat>, tiles: seq<nat>, tile: nat, s: nat): nat
    requires |fat| == |tiles| >= 1
  {
    SegExpertStart(tiles, s);
    Off(fat, SegExpert(tiles, s)) + (s - Off(tiles, SegExpert(tiles, s))) * tile
  }

  function SegRows(fat: seq<nat>, tiles: seq<nat>, tile: nat, s: nat): nat
    requires |fat| == |tiles| >= 1
  {
    SegExpertStart(tiles, s);
    Clamp(fat[SegExpert(tiles, s)] - (s - Off(tiles, SegExpert(tiles, s))) * tile, 0, tile)
  }

  /** Where fat row `r` comes from in the sorted route order, before the clamp. */
  function RawSrc(counts: seq<nat>, fat: seq<nat>, r: nat): nat
    requires |fat| == |counts| >= 1
  {
    SegExpertStart(fat, r);
    Off(counts, SegExpert(fat, r)) + (r - Off(fat, SegExpert(fat, r)))
  }

  function MaxSegs(rowsCap: nat, tile: nat, n: nat): nat
    requires tile > 0
  {
    (rowsCap + tile - 1) / tile + n
  }

  /** Source position of fat row `r`, clamped into the route buffer. */
  function SrcOf(counts: seq<nat>, fat: seq<nat>, rowsCap: nat, r: nat): nat
    requires |fat| == |counts| >= 1 && rowsCap > 0
  {
    Min(RawSrc(counts, fat, r), rowsCap - 1)
  }

  /** The segment table's entry `s`. */
  predicate SegEntry(t: Segments, fat: seq<nat>, tile: nat, s: nat)
    requires |fat| >= 1 && tile > 0
  {
    var tiles := Tiles(fat, tile);
    && s < |t.expert| && s < |t.row0| && s < |t.rows|
    && t.expert[s] == SegExpert(tiles, s) && t.row0[s] == SegRow0(fat, tiles, tile, s) && t.rows[s] == SegRows(fat, tiles, tile, s)
  }

  ghost predicate IsSegments(t: Segments, fat: seq<nat>, rowsCap: nat, tile: nat)
    requires |fat| >= 1 && tile > 0
  {
    && |t.expert| == |t.row0| == |t.rows| == MaxSegs(rowsCap, tile, |fat|)
    && t.num == Off(Tiles(fat, tile), |fat|)
    && (forall s :: 0 <= s < |t.expert| ==> SegEntry(t, fat, tile, s))
  }

  /** The row table's entry `r`. */
  predicate RowEntry(t: Rows, counts: seq<nat>, fat: seq<nat>, rowsCap: nat, r: nat)
    requires |fat| == |counts| >= 1 && rowsCap > 0
  {
    r < |t.expert| && r < |t.src| && t.expert[r] == SegExpert(fat, r) && t.src[r] == SrcOf(counts, fat, rowsCap, r)
  }

  ghost predicate IsRows(t: Rows, counts: seq<nat>, fat: seq<nat>, rowsCap: nat)
    requires |fat| == |counts| >= 1
  {
    && |t.expert| == |t.src| == rowsCap && t.num == Off(fat, |fat|)
    && (forall r :: 0 <= r < rowsCap ==> RowEntry(t, counts, fat, rowsCap, r))
  }

  /** `build_grouped_fat_tables`. */
  method BuildTables(counts: seq<nat>, cap: nat, rowsCap: nat, tile: nat) returns (segs: Segments, rows: Rows)
    requires |counts| >= 1 && tile > 0
    ensures IsSegments(segs, FatRows(counts, cap), rowsCap, tile)
    ensures IsRows(rows, counts, FatRows(counts, cap), rowsCap)
  {
    var fat := FatRows(counts, cap);
    var tiles := Tiles(fat, tile);
    var n := MaxSegs(rowsCap, tile, |counts|);
    segs := Segments(seq(n, s requires 0 <= s < n => SegExpert(tiles, s)),
                     seq(n, s requires 0 <= s < n => SegRow0(fat, tiles, tile, s)),
                     seq(n, s requires 0 <= s < n => SegRows(fat, tiles, tile, s)),
                     Off(tiles, |tiles|));
    rows := Rows(seq(rowsCap, r requires 0 <= r < rowsCap => SegExpert(fat, r)),
                 seq(rowsCap, r requires 0 <= r < rowsCap => SrcOf(counts, fat, rowsCap, r)),
                 Off(fat, |fat|));
    forall s | 0 <= s < n ensures SegEntry(segs, fat, tile, s) { }
    forall r | 0 <= r < rowsCap ensures RowEntry(rows, counts, fat, rowsCap, r) { }
  }

  // ----- properties of the tables -----

  lemma TileBounds(f: nat, tile: nat)
    requires tile > 0
    ensures var k := (f + (tile - 1)) / tile;
            f <= k * tile < f + tile && (k == 0 <==> f == 0) && k <= f / tile + 1
  {
    Arith.DivMulBounds(f + (tile - 1), tile);
    Arith.DivMulBounds(f, tile);
    var k := (f + (tile - 1)) / tile;
    if f == 0 {
      Arith.DivUnique(tile - 1, tile, 0, tile - 1);
    } else {
      assert k * tile >= f;
    }
    Arith.DivLower(k * tile - tile, tile, k - 1);
    assert (k - 1) * tile == k * tile - tile;
    Arith.DivMono(k * tile - tile, f, tile);
    Arith.MulMod(k - 1, tile);
  }

  lemma {:induction false} SegmentCount(fat: seq<nat>, tile: nat, k: nat)
    requires tile > 0 && k <= |fat|
    ensures Off(Tiles(fat, tile), k) <= Off(fat, k) / tile + k
  {
    if k > 0 {
      SegmentCount(fat, tile, k - 1);
      TileBounds(fat[k - 1], tile);
      Arith.FloorSum(Off(fat, k - 1), fat[k - 1], tile);
    }
  }

  lemma {:induction false} FatRowsAtMost(counts: seq<nat>, cap: nat, k: nat)
    requires k <= |counts|
    ensures Off(FatRows(counts, cap), k) <= Off(counts, k)
  {
    if k > 0 {
      FatRowsAtMost(counts, cap, k - 1);
    }
  }

  /** Experts without tiles own no fat rows. */
  lemma {:induction false} EmptyStretch(fat: seq<nat>, tile: nat, i: nat, j: nat)
    requires tile > 0 && i <= j <= |fat| && Off(Tiles(fat, tile), i) == Off(Tiles(fat, tile), j)
    ensures Off(fat, i) == Off(fat, j)
  {
    if i < j {
      OffMonotone(Tiles(fat, tile), i, j - 1);
      TileBounds(fat[j - 1], tile);
      EmptyStretch(fat, tile, i, j - 1);
    }
  }

  /** Over-full expert, non-empty, at most one tile, inside its expert. */
  predicate LiveAt(counts: seq<nat>, cap: nat, tile: nat, e: nat, row0: nat, rows: nat) {
    && e < |counts| && counts[e] > cap && 1 <= rows <= tile
    && Off(FatRows(counts, cap), e) <= row0 && row0 + rows <= Off(FatRows(counts, cap), e + 1)
  }

  predicate LiveSegment(counts: seq<nat>, cap: nat, tile: nat, t: Segments, s: nat)
    requires s < |t.expert| == |t.row0| == |t.rows|
  {
    LiveAt(counts, cap, tile, t.expert[s], t.row0[s], t.rows[s])
  }

  /** Tile `lt` of an expert with `f` rows. */
  lemma TileInside(f: nat, tile: nat, lt: nat)
    requires tile > 0
    ensures var rows := Clamp(f - lt * tile, 0, tile);
            if lt < (f + (tile - 1)) / tile
            then && 1 <= rows <= tile && lt * tile + rows <= f
                 && (if lt + 1 < (f + (tile - 1)) / tile then rows == tile else lt * tile + rows == f)
            else rows == 0
  {
    TileBounds(f, tile);
    var k := (f + (tile - 1)) / tile;
    if lt < k {
      Arith.MulMono(tile, lt + 1, k);
      Arith.OneMore(lt, tile);
      if lt + 1 < k {
        Arith.MulMono(tile, lt + 2, k);
        Arith.OneMore(lt + 1, tile);
      }
    } else {
      Arith.MulMono(tile, k, lt);
    }
  }

  lemma SegmentShape(counts: seq<nat>, cap: nat, tile: nat, s: nat)
    requires |counts| >= 1 && tile > 0
    ensures var fat := FatRows(counts, cap); var tiles := Tiles(fat, tile);
            var e := SegExpert(tiles, s); var row0, rows := SegRow0(fat, tiles, tile, s), SegRows(fat, tiles, tile, s);
            if s < Off(tiles, |tiles|)
            then && LiveAt(counts, cap, tile, e, row0, rows)
                 && (s + 1 < Off(tiles, e + 1) ==> rows == tile)
                 && (s + 1 == Off(tiles, e + 1) ==> row0 + rows == Off(fat, e + 1))
            else rows == 0
  {
    var fat := FatRows(counts, cap);
    var tiles := Tiles(fat, tile);
    SegExpertStart(tiles, s);
    var e := SegExpert(tiles, s);
    TileInside(fat[e], tile, s - Off(tiles, e));
    OffMonotone(tiles, e + 1, |tiles|);
  }

  /** Inside an expert the next segment starts one full tile later. */
  lemma NextTile(counts: seq<nat>, cap: nat, tile: nat, s: nat)
    requires |counts| >= 1 && tile > 0
    requires var tiles := Tiles(FatRows(counts, cap), tile); s + 1 < Off(tiles, SegExpert(tiles, s) + 1)
    ensures var fat := FatRows(counts, cap); var tiles := Tiles(fat, tile);
            SegRow0(fat, tiles, tile, s + 1) == SegRow0(fat, tiles, tile, s) + tile
  {
    var fat := FatRows(counts, cap);
    var tiles := Tiles(fat, tile);
    SegExpertStart(tiles, s);
    var e := SegExpert(tiles, s);
    SearchUnique(tiles, s + 1, e);
    var lt := s - Off(tiles, e);
    assert SegRow0(fat, tiles, tile, s) == Off(fat, e) + lt * tile;
    assert SegRow0(fat, tiles, tile, s + 1) == Off(fat, e) + (lt + 1) * tile;
    Arith.OneMore(lt, tile);
  }

  /** The first segment of an expert starts where the previous over-full expert ends. */
  lemma NextExpert(counts: seq<nat>, cap: nat, tile: nat, s: nat, e: nat)
    requires |counts| >= 1 && tile > 0 && e < |counts|
    requires var tiles := Tiles(FatRows(counts, cap), tile); s == Off(tiles, e + 1) < Off(tiles, |tiles|)
    ensures var fat := FatRows(counts, cap); SegRow0(fat, Tiles(fat, tile), tile, s) == Off(fat, e + 1)
  {
    var fat := FatRows(counts, cap);
    var tiles := Tiles(fat, tile);
    var e2 := SegExpert(tiles, s);
    SegExpertStart(tiles, s);
    LaterExpert(tiles, s, e, e2);
    EmptyStretch(fat, tile, e + 1, e2);
    assert SegRow0(fat, tiles, tile, s) == Off(fat, e2) + 0 * tile;
  }

  /** Consecutive segments are adjacent in the fat-row buffer. */
  lemma SegmentsAdjacent(counts: seq<nat>, cap: nat, tile: nat, s: nat)
    requires |counts| >= 1 && tile > 0
    requires s < Off(Tiles(FatRows(counts, cap), tile), |counts|)
    ensures var fat := FatRows(counts, cap); var tiles := Tiles(fat, tile);
            SegRow0(fat, tiles, tile, s) + SegRows(fat, tiles, tile, s)
            == if s + 1 < Off(tiles, |tiles|) then SegRow0(fat, tiles, tile, s + 1) else Off(fat, |fat|)
  {
    var fat := FatRows(counts, cap);
    var tiles := Tiles(fat, tile);
    var e := SegExpert(tiles, s);
    SegExpertStart(tiles, s);
    SegmentShape(counts, cap, tile, s);
    OffMonotone(tiles, e + 1, |tiles|);
    if s + 1 < Off(tiles, e + 1) {
      NextTile(counts, cap, tile, s);
    } else if s + 1 < Off(tiles, |tiles|) {
      NextExpert(counts, cap, tile, s + 1, e);
    } else {
      EmptyStretch(fat, tile, e + 1, |fat|);
    }
  }

  lemma SearchUnique(x: seq<nat>, v: nat, e: nat)
    requires e < |x| && Off(x, e) <= v < Off(x, e + 1)
    ensures Search(x, v, 0) == e && SegExpert(x, v) == e
  {
    var r := Search(x, v, 0);
    OffMonotone(x, e + 1, |x|);
    if r < e {
      OffMonotone(x, r + 1, e);
    } else if e < r && r < |x| {
      OffMonotone(x, e + 1, r);
    }
  }

  lemma LaterExpert(x: seq<nat>, s: nat, e: nat, e2: nat)
    requires e < |x| && e2 < |x| && s == Off(x, e + 1) && Off(x, e2) <= s < Off(x, e2 + 1)
    ensures e + 1 <= e2 && Off(x, e + 1) == Off(x, e2)
  {
    if e2 <= e {
      OffMonotone(x, e2 + 1, e + 1);
      assert false;
    }
    OffMonotone(x, e + 1, e2);
  }

  /** Segment `s` ends where the next live one starts, or at the last fat row. */
  predicate Adjacent(t: Segments, numRows: nat, s: nat)
    requires t.num <= |t.row0| == |t.rows| && s < t.num
  {
    t.row0[s] + t.rows[s] == if s + 1 < t.num then t.row0[s + 1] else numRows
  }

  predicate Sized(t: Segments, numRows: nat) {
    && |t.expert| == |t.row0| == |t.rows| && t.num <= |t.expert|
    && (if t.num > 0 then t.row0[0] == 0 else numRows == 0)
  }

  /** The segment table partitions the fat rows: there are never more live segments
      than allotted, each lies inside one over-full expert and holds 1 to `tile` rows,
      padding segments are empty, and the live segments tile [0, numRows) in order
      without gap or overlap. */
  predicate PartitionsRows(counts: seq<nat>, cap: nat, tile: nat, t: Segments, numRows: nat) {
    && Sized(t, numRows)
    && (forall s :: 0 <= s < t.num ==> LiveSegment(counts, cap, tile, t, s))
    && (forall s :: t.num <= s < |t.rows| ==> t.rows[s] == 0)
    && (forall s :: 0 <= s < t.num ==> Adjacent(t, numRows, s))
  }

  predicate SegmentOk(counts: seq<nat>, cap: nat, tile: nat, t: Segments, numRows: nat, s: nat) {
    Sized(t, numRows) && s < |t.rows| &&
    if s < t.num then LiveSegment(counts, cap, tile, t, s) && Adjacent(t, numRows, s) else t.rows[s] == 0
  }

  lemma Assemble(counts: seq<nat>, cap: nat, tile: nat, t: Segments, numRows: nat)
    requires Sized(t, numRows) && forall s :: 0 <= s < |t.rows| ==> SegmentOk(counts, cap, tile, t, numRows, s)
    ensures PartitionsRows(counts, cap, tile, t, numRows)
  {
    forall s | 0 <= s < |t.rows|
      ensures if s < t.num then LiveSegment(counts, cap, tile, t, s) && Adjacent(t, numRows, s) else t.rows[s] == 0
    {
      assert SegmentOk(counts, cap, tile, t, numRows, s);
    }
  }

  /** Main theorem. */
  lemma SegmentsPartitionRows(counts: seq<nat>, cap: nat, rowsCap: nat, tile: nat, t: Segments)
    requires |counts| >= 1 && tile > 0 && Off(counts, |counts|) <= rowsCap
    requires IsSegments(t, FatRows(counts, cap), rowsCap, tile)
    ensures PartitionsRows(counts, cap, tile, t, Off(FatRows(counts, cap), |counts|))
    ensures Off(FatRows(counts, cap), |counts|) <= rowsCap
  {
    var numRows := Off(FatRows(counts, cap), |counts|);
    TableSized(counts, cap, rowsCap, tile, t);
    forall s: nat | s < |t.rows| ensures SegmentOk(counts, cap, tile, t, numRows, s) {
      SegmentIsOk(counts, cap, rowsCap, tile, t, s);
    }
    Assemble(counts, cap, tile, t, numRows);
  }

  lemma TableSized(counts: seq<nat>, cap: nat, rowsCap: nat, tile: nat, t: Segments)
    requires |counts| >= 1 && tile > 0 && Off(counts, |counts|) <= rowsCap
    requires IsSegments(t, FatRows(counts, cap), rowsCap, tile)
    ensures Sized(t, Off(FatRows(counts, cap), |counts|)) && Off(FatRows(counts, cap), |counts|) <= rowsCap
  {
    SegmentRoom(counts, cap, rowsCap, tile);
    if t.num > 0 {
      assert SegEntry(t, FatRows(counts, cap), tile, 0);
    }
  }

  lemma EntryShape(counts: seq<nat>, cap: nat, tile: nat, t: Segments, s: nat)
    requires |counts| >= 1 && tile > 0 && s < |t.expert| == |t.row0| == |t.rows|
    requires SegEntry(t, FatRows(counts, cap), tile, s)
    ensures if s < Off(Tiles(FatRows(counts, cap), tile), |counts|) then LiveSegment(counts, cap, tile, t, s) else t.rows[s] == 0
  {
    SegmentShape(counts, cap, tile, s);
  }

  lemma SegmentIsOk(counts: seq<nat>, cap: nat, rowsCap: nat, tile: nat, t: Segments, s: nat)
    requires |counts| >= 1 && tile > 0 && s < |t.rows|
    requires IsSegments(t, FatRows(counts, cap), rowsCap, tile)
    requires Sized(t, Off(FatRows(counts, cap), |counts|))
    ensures SegmentOk(counts, cap, tile, t, Off(FatRows(counts, cap), |counts|), s)
  {
    assert SegEntry(t, FatRows(counts, cap), tile, s);
    EntryShape(counts, cap, tile, t, s);
    if s < t.num {
      EntriesAdjacent(counts, cap, rowsCap, tile, t, s);
    }
  }

  lemma EntriesAdjacent(counts: seq<nat>, cap: nat, rowsCap: nat, tile: nat, t: Segments, s: nat)
    requires |counts| >= 1 && tile > 0 && s < t.num <= |t.rows| == |t.row0|
    requires IsSegments(t, FatRows(counts, cap), rowsCap, tile)
    ensures Adjacent(t, Off(FatRows(counts, cap), |counts|), s)
  {
    var fat := FatRows(counts, cap);
    var tiles := Tiles(fat, tile);
    SegmentsAdjacent(counts, cap, tile, s);
    var here, rows, last := SegRow0(fat, tiles, tile, s), SegRows(fat, tiles, tile, s), Off(fat, |fat|);
    assert SegEntry(t, fat, tile, s);
    if s + 1 < t.num {
      assert SegEntry(t, fat, tile, s + 1);
      var next := SegRow0(fat, tiles, tile, s + 1);
      assert here + rows == next;
    } else {
      assert here + rows == last;
    }
  }

  /** The allotted table sizes suffice, and the first segment starts at row 0. */
  lemma SegmentRoom(counts: seq<nat>, cap: nat, rowsCap: nat, tile: nat)
    requires |counts| >= 1 && tile > 0 && Off(counts, |counts|) <= rowsCap
    ensures var fat := FatRows(counts, cap); var tiles := Tiles(fat, tile);
            && Off(tiles, |tiles|) <= MaxSegs(rowsCap, tile, |counts|) && Off(fat, |fat|) <= rowsCap
            && (if Off(tiles, |tiles|) > 0 then SegRow0(fat, tiles, tile, 0) == 0 else Off(fat, |fat|) == 0)
  {
    var fat := FatRows(counts, cap);
    var tiles := Tiles(fat, tile);
    FatRowsAtMost(counts, cap, |counts|);
    SegmentCount(fat, tile, |fat|);
    Arith.DivMono(Off(fat, |fat|), rowsCap + tile - 1, tile);
    if Off(tiles, |tiles|) > 0 {
      SegExpertStart(tiles, 0);
      EmptyStretch(fat, tile, 0, SegExpert(tiles, 0));
    } else {
      EmptyStretch(fat, tile, 0, |fat|);
    }
  }

  /** Main theorem. Live rows map onto sorted route positions one to one: row `r` is a
      position of its over-full expert and the clamp changes nothing; with SrcIncreasing
      later rows come from later positions, and with FatPositionsAreLiveRows every
      position of an over-full expert is some live row's. */
  lemma LiveRowsAreFatPositions(counts: seq<nat>, cap: nat, rowsCap: nat, t: Rows, r: nat)
    requires |counts| >= 1 && Off(counts, |counts|) <= rowsCap
    requires IsRows(t, counts, FatRows(counts, cap), rowsCap) && r < t.num
    ensures r < rowsCap
    ensures var fat, e := FatRows(counts, cap), t.expert[r];
            && e < |counts| && counts[e] > cap
            && Off(counts, e) <= t.src[r] < Off(counts, e + 1) <= rowsCap
            && t.src[r] == Off(counts, e) + (r - Off(fat, e))
            && Off(fat, e) <= r < Off(fat, e + 1)
  {
    FatRowsAtMost(counts, cap, |counts|);
    assert RowEntry(t, counts, FatRows(counts, cap), rowsCap, r);
    LiveEntry(counts, cap, rowsCap, t, r);
  }

  lemma LiveEntry(counts: seq<nat>, cap: nat, rowsCap: nat, t: Rows, r: nat)
    requires |counts| >= 1 && Off(counts, |counts|) <= rowsCap && r < Off(FatRows(counts, cap), |counts|) <= rowsCap
    requires RowEntry(t, counts, FatRows(counts, cap), rowsCap, r)
    ensures var fat, e := FatRows(counts, cap), t.expert[r];
            && e < |counts| && counts[e] > cap
            && Off(counts, e) <= t.src[r] < Off(counts, e + 1) <= rowsCap
            && t.src[r] == Off(counts, e) + (r - Off(fat, e))
            && Off(fat, e) <= r < Off(fat, e + 1)
  {
    var fat := FatRows(counts, cap);
    SegExpertStart(fat, r);
    OffMonotone(counts, SegExpert(fat, r) + 1, |counts|);
  }

  lemma SrcIncreasing(counts: seq<nat>, cap: nat, rowsCap: nat, t: Rows, r1: nat, r2: nat)
    requires |counts| >= 1 && Off(counts, |counts|) <= rowsCap
    requires IsRows(t, counts, FatRows(counts, cap), rowsCap) && r1 < r2 < t.num
    ensures r2 < rowsCap && t.src[r1] < t.src[r2]
  {
    LiveRowsAreFatPositions(counts, cap, rowsCap, t, r1);
    LiveRowsAreFatPositions(counts, cap, rowsCap, t, r2);
    var e1, e2 := t.expert[r1], t.expert[r2];
    if e1 < e2 {
      OffMonotone(counts, e1 + 1, e2);
    } else if e2 < e1 {
      OffMonotone(FatRows(counts, cap), e2 + 1, e1);
    }
  }

  lemma FatPositionsAreLiveRows(counts: seq<nat>, cap: nat, rowsCap: nat, t: Rows, e: nat, p: nat) returns (r: nat)
    requires |counts| >= 1 && Off(counts, |counts|) <= rowsCap && IsRows(t, counts, FatRows(counts, cap), rowsCap)
    requires e < |counts| && counts[e] > cap && Off(counts, e) <= p < Off(counts, e + 1)
    ensures r < t.num <= rowsCap && t.src[r] == p
  {
    var fat := FatRows(counts, cap);
    r := Off(fat, e) + (p - Off(counts, e));
    FatRowsAtMost(counts, cap, |counts|);
    OffMonotone(fat, e + 1, |fat|);
    SearchUnique(fat, r, e);
    assert RowEntry(t, counts, fat, rowsCap, r);
    LiveRowsAreFatPositions(counts, cap, rowsCap, t, r);
  }

  /** All rows of a live segment belong to the segment's expert. */
  lemma SegmentRowsShareExpert(counts: seq<nat>, cap: nat, rowsCap: nat, tile: nat, t: Segments, rows: Rows, s: nat, r: nat)
    requires |counts| >= 1 && Off(counts, |counts|) <= rowsCap && IsRows(rows, counts, FatRows(counts, cap), rowsCap)
    requires s < t.num <= |t.rows| == |t.row0| == |t.expert| && LiveSegment(counts, cap, tile, t, s)
    requires t.row0[s] <= r < t.row0[s] + t.rows[s]
    ensures r < rows.num <= rowsCap && rows.expert[r] == t.expert[s]
  {
    var fat := FatRows(counts, cap);
    FatRowsAtMost(counts, cap, |counts|);
    OffMonotone(fat, t.expert[s] + 1, |fat|);
    SearchUnique(fat, r, t.expert[s]);
    assert RowEntry(rows, counts, fat, rowsCap, r);
  }
}
