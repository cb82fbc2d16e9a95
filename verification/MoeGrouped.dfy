/** The grouped tier of overlay/exl3.py (apply_exl3_grouped_fat): three launches over the
    fat-row buffers, driven by the device-side tables. */
module MoeGrouped {
  import opened Common
  import opened MoeRoutes
  import opened MoeTiers
  import opened GroupedTables

  /** The route behind fat row `r`. */
  function RouteAt(sorted: seq<Route>, rows: Rows, r: nat): Route
    requires r < |rows.src| && rows.src[r] < |sorted|
  {
    sorted[rows.src[r]]
  }

  /** Every live row names a sorted route. */
  predicate RowsReady(sorted: seq<Route>, rows: Rows) {
    rows.num <= |rows.src| == |rows.expert| && forall r :: 0 <= r < rows.num ==> rows.src[r] < |sorted|
  }

  /** What the first `p` fat rows add to token `t`. */
  function LiveSum(y: Expert, sorted: seq<Route>, rows: Rows, p: nat, t: nat): real
    requires RowsReady(sorted, rows) && p <= rows.num
  {
    if p == 0 then 0.0
    else LiveSum(y, sorted, rows, p - 1, t) + Term(y, RouteAt(sorted, rows, p - 1), rows.expert[p - 1], t)
  }

  /** Where segment `s` starts; past the live segments, the number of rows. */
  function Edge(segs: Segments, numRows: nat, s: nat): nat
    requires s <= segs.num <= |segs.row0|
  {
    if s < segs.num then segs.row0[s] else numRows
  }

  predicate Owns(segs: Segments, rows: Rows, s: nat) {
    && s < |segs.rows| == |segs.row0| == |segs.expert| && segs.row0[s] + segs.rows[s] <= rows.num <= |rows.expert|
    && forall r :: segs.row0[s] <= r < segs.row0[s] + segs.rows[s] ==> rows.expert[r] == segs.expert[s]
  }

  /** The live segments, in order, are the live rows, each row with its own expert. */
  predicate Schedules(segs: Segments, rows: Rows) {
    && Sized(segs, rows.num) && rows.num <= |rows.expert|
    && (forall s :: 0 <= s < segs.num ==> Owns(segs, rows, s))
    && (forall s :: 0 <= s < segs.num ==> Adjacent(segs, rows.num, s))
  }

  lemma TablesSchedule(counts: seq<nat>, cap: nat, rowsCap: nat, tile: nat, segs: Segments, rows: Rows)
    requires |counts| >= 1 && tile > 0 && Off(counts, |counts|) <= rowsCap
    requires IsSegments(segs, FatRows(counts, cap), rowsCap, tile) && IsRows(rows, counts, FatRows(counts, cap), rowsCap)
    ensures Schedules(segs, rows)
  {
    SegmentsPartitionRows(counts, cap, rowsCap, tile, segs);
    forall s | 0 <= s < segs.num ensures Owns(segs, rows, s) {
      assert LiveSegment(counts, cap, tile, segs, s);
      SegmentOwns(counts, cap, rowsCap, tile, segs, rows, s);
    }
  }

  lemma SegmentOwns(counts: seq<nat>, cap: nat, rowsCap: nat, tile: nat, segs: Segments, rows: Rows, s: nat)
    requires |counts| >= 1 && Off(counts, |counts|) <= rowsCap && IsRows(rows, counts, FatRows(counts, cap), rowsCap)
    requires s < segs.num <= |segs.rows| == |segs.row0| == |segs.expert| && LiveSegment(counts, cap, tile, segs, s)
    ensures Owns(segs, rows, s)
  {
    var end := segs.row0[s] + segs.rows[s];
    SegmentRowsShareExpert(counts, cap, rowsCap, tile, segs, rows, s, end - 1);
    forall r | segs.row0[s] <= r < end ensures rows.expert[r] == segs.expert[s] {
      SegmentRowsShareExpert(counts, cap, rowsCap, tile, segs, rows, s, r);
    }
  }

  lemma TablesReady(counts: seq<nat>, cap: nat, sorted: seq<Route>, rows: Rows)
    requires |counts| >= 1 && Off(counts, |counts|) <= |sorted| && IsRows(rows, counts, FatRows(counts, cap), |sorted|)
    ensures RowsReady(sorted, rows)
  {
    FatRowsAtMost(counts, cap, |counts|);
    forall r | 0 <= r < rows.num ensures rows.src[r] < |sorted| {
      LiveRowsAreFatPositions(counts, cap, |sorted|, rows, r);
    }
  }

  lemma RowTablesAgree(counts: seq<nat>, fat: seq<nat>, rowsCap: nat, a: Rows, b: Rows)
    requires |fat| == |counts| >= 1 && IsRows(a, counts, fat, rowsCap) && IsRows(b, counts, fat, rowsCap)
    ensures a == b
  {
    forall r: nat | r < rowsCap ensures a.expert[r] == b.expert[r] && a.src[r] == b.src[r] {
      assert RowEntry(a, counts, fat, rowsCap, r) && RowEntry(b, counts, fat, rowsCap, r);
    }
    assert a.expert == b.expert && a.src == b.src;
  }

  // ----- the live rows are the over-full experts' slices -----

  lemma RowsSumSnoc(y: Expert, sorted: seq<Route>, base: nat, j: nat, e: nat, t: nat)
    requires base + j < |sorted|
    ensures RowsSum(y, sorted[base..base + j + 1], e, t) == RowsSum(y, sorted[base..base + j], e, t) + Term(y, sorted[base + j], e, t)
  {
    assert sorted[base..base + j + 1] == sorted[base..base + j] + [sorted[base + j]];
    RowsSumConcat(y, sorted[base..base + j], [sorted[base + j]], e, t);
    RowsSumOne(y, sorted[base + j], e, t);
  }

  lemma RowsSumOne(y: Expert, r: Route, e: nat, t: nat)
    ensures RowsSum(y, [r], e, t) == Term(y, r, e, t)
  {
    assert [r][1..] == [];
  }

  lemma LiveRow(counts: seq<nat>, cap: nat, sorted: seq<Route>, rows: Rows, e: nat, j: nat)
    requires |counts| >= 1 && Off(counts, |counts|) <= |sorted| && IsRows(rows, counts, FatRows(counts, cap), |sorted|)
    requires e < |counts| && j < FatRows(counts, cap)[e]
    ensures var r := Off(FatRows(counts, cap), e) + j;
            && r < rows.num <= |sorted| && rows.expert[r] == e
            && Off(counts, e) + j < |sorted| && rows.src[r] == Off(counts, e) + j
  {
    var fat := FatRows(counts, cap);
    FatRowsAtMost(counts, cap, |counts|);
    OffMonotone(fat, e + 1, |fat|);
    OffMonotone(counts, e + 1, |counts|);
    SearchUnique(fat, Off(fat, e) + j, e);
    assert RowEntry(rows, counts, fat, |sorted|, Off(fat, e) + j);
  }

  /** Fat rows [p, p + len) are the sorted positions [base, base + len) of expert `e`. */
  predicate MapsSlice(rows: Rows, p: nat, base: nat, len: nat, e: nat) {
    && p + len <= rows.num <= |rows.expert| == |rows.src|
    && (forall r :: p <= r < p + len ==> rows.expert[r] == e)
    && (forall r :: p <= r < p + len ==> rows.src[r] == base + (r - p))
  }

  lemma {:induction false} RowsMapSlice(counts: seq<nat>, cap: nat, sorted: seq<Route>, rows: Rows, e: nat, len: nat)
    requires |counts| >= 1 && Off(counts, |counts|) <= |sorted| && IsRows(rows, counts, FatRows(counts, cap), |sorted|)
    requires e < |counts| && len <= FatRows(counts, cap)[e]
    ensures MapsSlice(rows, Off(FatRows(counts, cap), e), Off(counts, e), len, e)
  {
    if len > 0 {
      RowsMapSlice(counts, cap, sorted, rows, e, len - 1);
      LiveRow(counts, cap, sorted, rows, e, len - 1);
    } else {
      OffMonotone(FatRows(counts, cap), e, |counts|);
      FatRowsAtMost(counts, cap, |counts|);
    }
  }

  /** Expert `e`'s fat rows are its slice of the sort, or none. */
  predicate MapsOne(rows: Rows, counts: seq<nat>, fat: seq<nat>, cap: nat, e: nat) {
    && e < |counts| == |fat| && fat[e] == (if counts[e] > cap then counts[e] else 0)
    && MapsSlice(rows, Off(fat, e), Off(counts, e), fat[e], e)
  }

  predicate MapsAll(rows: Rows, counts: seq<nat>, fat: seq<nat>, cap: nat) {
    |fat| == |counts| && forall e :: 0 <= e < |counts| ==> MapsOne(rows, counts, fat, cap, e)
  }

  lemma RowsMapAll(counts: seq<nat>, cap: nat, sorted: seq<Route>, rows: Rows)
    requires |counts| >= 1 && Off(counts, |counts|) <= |sorted| && IsRows(rows, counts, FatRows(counts, cap), |sorted|)
    ensures MapsAll(rows, counts, FatRows(counts, cap), cap)
  {
    forall e | 0 <= e < |counts| ensures MapsOne(rows, counts, FatRows(counts, cap), cap, e) {
      RowsMapSlice(counts, cap, sorted, rows, e, FatRows(counts, cap)[e]);
    }
  }

  lemma {:induction false} LiveHead(y: Expert, sorted: seq<Route>, rows: Rows, p: nat, base: nat, len: nat, e: nat, t: nat)
    requires RowsReady(sorted, rows) && MapsSlice(rows, p, base, len, e) && base + len <= |sorted|
    ensures LiveSum(y, sorted, rows, p + len, t) == LiveSum(y, sorted, rows, p, t) + RowsSum(y, sorted[base..base + len], e, t)
  {
    if len > 0 {
      LiveHead(y, sorted, rows, p, base, len - 1, e, t);
      RowsSumSnoc(y, sorted, base, len - 1, e, t);
    }
  }

  /** Adding every live row is running every over-full expert on its slice. */
  lemma {:induction false} LiveRowsAreFatSlices(y: Expert, counts: seq<nat>, fat: seq<nat>, cap: nat, sorted: seq<Route>, rows: Rows, k: nat, t: nat)
    requires Off(counts, |counts|) <= |sorted| && RowsReady(sorted, rows) && MapsAll(rows, counts, fat, cap) && k <= |counts|
    ensures Off(fat, k) <= rows.num
    ensures LiveSum(y, sorted, rows, Off(fat, k), t) == SlicesSum(y, sorted, counts, Not(Fits(counts, cap)), k, t)
  {
    if k > 0 {
      LiveRowsAreFatSlices(y, counts, fat, cap, sorted, rows, k - 1, t);
      assert MapsOne(rows, counts, fat, cap, k - 1);
      FatSliceStep(y, counts, fat, cap, sorted, rows, k - 1, t);
    }
  }

  lemma FatSliceStep(y: Expert, counts: seq<nat>, fat: seq<nat>, cap: nat, sorted: seq<Route>, rows: Rows, e: nat, t: nat)
    requires Off(counts, |counts|) <= |sorted| && RowsReady(sorted, rows) && MapsOne(rows, counts, fat, cap, e)
    ensures Off(fat, e) <= Off(fat, e + 1) <= rows.num && Off(counts, e) <= Off(counts, e + 1) <= |sorted|
    ensures LiveSum(y, sorted, rows, Off(fat, e + 1), t)
            == LiveSum(y, sorted, rows, Off(fat, e), t)
               + (if counts[e] > cap then RowsSum(y, sorted[Off(counts, e)..Off(counts, e + 1)], e, t) else 0.0)
  {
    OffMonotone(counts, e + 1, |counts|);
    if counts[e] > cap {
      LiveHead(y, sorted, rows, Off(fat, e), Off(counts, e), counts[e], e, t);
    }
  }

  // ----- the order of the additions -----

  /** Some live rows, in the order in which their additions reach the output. */
  predicate AreLive(order: seq<nat>, p: nat) { forall i :: 0 <= i < |order| ==> order[i] < p }

  predicate Distinct(order: seq<nat>) { forall i, j :: 0 <= i < j < |order| ==> order[i] != order[j] }

  /** What these additions give token `t`. */
  function AddedIn(y: Expert, sorted: seq<Route>, rows: Rows, order: seq<nat>, t: nat): real
    requires RowsReady(sorted, rows) && AreLive(order, rows.num)
  {
    if order == [] then 0.0
    else
      var r := order[0];
      Term(y, RouteAt(sorted, rows, r), rows.expert[r], t) + AddedIn(y, sorted, rows, order[1..], t)
  }

  lemma {:induction false} AddedWithout(y: Expert, sorted: seq<Route>, rows: Rows, order: seq<nat>, i: nat, t: nat)
    requires RowsReady(sorted, rows) && AreLive(order, rows.num) && i < |order|
    ensures AreLive(order[..i] + order[i + 1..], rows.num)
    ensures AddedIn(y, sorted, rows, order, t)
            == AddedIn(y, sorted, rows, order[..i] + order[i + 1..], t) + Term(y, RouteAt(sorted, rows, order[i]), rows.expert[order[i]], t)
  {
    if i == 0 {
      assert order[..0] + order[1..] == order[1..];
    } else {
      var rest := order[1..];
      AddedWithout(y, sorted, rows, rest, i - 1, t);
      assert order[..i] + order[i + 1..] == [order[0]] + (rest[..i - 1] + rest[i..]);
      assert ([order[0]] + (rest[..i - 1] + rest[i..]))[1..] == rest[..i - 1] + rest[i..];
    }
  }

  /** The rows below `p`, all of them, without the last one. */
  lemma WithoutLast(order: seq<nat>, p: nat) returns (i: nat)
    requires p > 0 && AreLive(order, p) && Distinct(order) && forall r: nat :: r < p ==> r in order
    ensures i < |order| && order[i] == p - 1
    ensures var rest := order[..i] + order[i + 1..];
            AreLive(rest, p - 1) && Distinct(rest) && forall r: nat :: r < p - 1 ==> r in rest
  {
    assert p - 1 in order;
    i :| 0 <= i < |order| && order[i] == p - 1;
    var rest := order[..i] + order[i + 1..];
    forall k | 0 <= k < |rest| ensures rest[k] < p - 1 { assert rest[k] == order[if k < i then k else k + 1]; }
    forall r: nat | r < p - 1 ensures r in rest {
      assert r in order;
      var k :| 0 <= k < |order| && order[k] == r;
      assert rest[if k < i then k else k - 1] == r;
    }
  }

  /** Main theorem: whatever the order in which the live rows are added, each token ends
      with the same sum. */
  lemma {:induction false} AnyScatterOrder(y: Expert, sorted: seq<Route>, rows: Rows, order: seq<nat>, p: nat, t: nat)
    requires RowsReady(sorted, rows) && p <= rows.num
    requires AreLive(order, p) && Distinct(order) && forall r: nat :: r < p ==> r in order
    ensures AddedIn(y, sorted, rows, order, t) == LiveSum(y, sorted, rows, p, t)
    decreases p
  {
    if p == 0 {
      assert order == [];
    } else {
      var i := WithoutLast(order, p);
      AddedWithout(y, sorted, rows, order, i, t);
      AnyScatterOrder(y, sorted, rows, order[..i] + order[i + 1..], p - 1, t);
    }
  }

  // ----- the three launches -----

  /** Gather and gate/up as one activation half. */
  function Half<A, B>(pre: (nat, nat) -> A, mid: (nat, A) -> B): (nat, nat) -> B { (e: nat, t: nat) => mid(e, pre(e, t)) }

  /** An expert as gather, gate/up and down stages. */
  function Staged<A, B>(pre: (nat, nat) -> A, mid: (nat, A) -> B, down: (nat, B) -> real): Expert {
    Compose(Half(pre, mid), down)
  }

  method GatherStage<A>(h13: array<A>, pre: (nat, nat) -> A, sorted: seq<Route>, rows: Rows)
    requires RowsReady(sorted, rows) && rows.num <= h13.Length
    modifies h13
    ensures forall r :: 0 <= r < rows.num ==> h13[r] == pre(rows.expert[r], RouteAt(sorted, rows, r).tok)
  {
    var r := 0;
    while r < rows.num
      invariant 0 <= r <= rows.num
      invariant forall i :: 0 <= i < r ==> h13[i] == pre(rows.expert[i], RouteAt(sorted, rows, i).tok)
    {
      h13[r] := pre(rows.expert[r], RouteAt(sorted, rows, r).tok);
      r := r + 1;
    }
  }

  method GateUpStage<A, B>(h13: array<A>, h2: array<B>, mid: (nat, A) -> B, segs: Segments, ghost rows: Rows)
    requires Schedules(segs, rows) && rows.num <= h13.Length && rows.num <= h2.Length && h13 as object != h2 as object
    modifies h2
    ensures forall r :: 0 <= r < rows.num ==> h2[r] == mid(rows.expert[r], h13[r])
  {
    var s := 0;
    while s < segs.num
      invariant 0 <= s <= segs.num && Edge(segs, rows.num, s) <= rows.num
      invariant forall r :: 0 <= r < Edge(segs, rows.num, s) ==> h2[r] == mid(rows.expert[r], h13[r])
    {
      assert Owns(segs, rows, s) && Adjacent(segs, rows.num, s);
      var r := segs.row0[s];
      while r < segs.row0[s] + segs.rows[s]
        invariant segs.row0[s] <= r <= segs.row0[s] + segs.rows[s]
        invariant forall i :: 0 <= i < r ==> h2[i] == mid(rows.expert[i], h13[i])
      {
        h2[r] := mid(segs.expert[s], h13[r]);
        r := r + 1;
      }
      s := s + 1;
    }
  }

  method DownStage<B>(out: array<real>, h2: array<B>, down: (nat, B) -> real, ghost y: Expert, sorted: seq<Route>, segs: Segments, rows: Rows)
    requires Schedules(segs, rows) && RowsReady(sorted, rows) && rows.num <= h2.Length && h2 as object != out as object
    requires forall r :: r in sorted ==> r.tok < out.Length
    requires forall r :: 0 <= r < rows.num ==> down(rows.expert[r], h2[r]) == y(rows.expert[r], RouteAt(sorted, rows, r).tok)
    modifies out
    ensures forall t :: 0 <= t < out.Length ==> out[t] == old(out[t]) + LiveSum(y, sorted, rows, rows.num, t)
  {
    var s := 0;
    while s < segs.num
      invariant 0 <= s <= segs.num && Edge(segs, rows.num, s) <= rows.num
      invariant forall t :: 0 <= t < out.Length ==> out[t] == old(out[t]) + LiveSum(y, sorted, rows, Edge(segs, rows.num, s), t)
    {
      assert Owns(segs, rows, s) && Adjacent(segs, rows.num, s);
      DownSegment(out, h2, down, y, sorted, segs, rows, s);
      s := s + 1;
    }
  }

  method DownSegment<B>(out: array<real>, h2: array<B>, down: (nat, B) -> real, ghost y: Expert, sorted: seq<Route>, segs: Segments, rows: Rows, s: nat)
    requires Owns(segs, rows, s) && RowsReady(sorted, rows) && rows.num <= h2.Length && h2 as object != out as object
    requires forall r :: r in sorted ==> r.tok < out.Length
    requires forall r :: 0 <= r < rows.num ==> down(rows.expert[r], h2[r]) == y(rows.expert[r], RouteAt(sorted, rows, r).tok)
    modifies out
    ensures forall t :: 0 <= t < out.Length ==>
              out[t] == old(out[t]) + LiveSum(y, sorted, rows, segs.row0[s] + segs.rows[s], t) - LiveSum(y, sorted, rows, segs.row0[s], t)
  {
    var r := segs.row0[s];
    while r < segs.row0[s] + segs.rows[s]
      invariant segs.row0[s] <= r <= segs.row0[s] + segs.rows[s]
      invariant forall t :: 0 <= t < out.Length ==>
                  out[t] == old(out[t]) + LiveSum(y, sorted, rows, r, t) - LiveSum(y, sorted, rows, segs.row0[s], t)
    {
      assert segs.expert[s] == rows.expert[r];
      AddRow(out, RouteAt(sorted, rows, r), y, segs.expert[s], down(segs.expert[s], h2[r]));
      r := r + 1;
    }
  }

  /** One scattered row. */
  method AddRow(out: array<real>, route: Route, ghost y: Expert, ghost e: nat, v: real)
    requires route.tok < out.Length && v == y(e, route.tok)
    modifies out
    ensures forall t :: 0 <= t < out.Length ==> out[t] == old(out[t]) + Term(y, route, e, t)
  {
    out[route.tok] := out[route.tok] + route.wt * v;
  }

  /** `apply_exl3_grouped_fat`, with separate tables when the two tile heights differ. */
  method GroupedFat<A, B>(out: array<real>, h13: array<A>, h2: array<B>,
                          pre: (nat, nat) -> A, mid: (nat, A) -> B, down: (nat, B) -> real,
                          cap: nat, counts: seq<nat>, sorted: seq<Route>, tileGu: nat, tileDn: nat)
    requires |counts| >= 1 && tileGu > 0 && tileDn > 0 && Off(counts, |counts|) <= |sorted|
    requires |sorted| <= h13.Length && |sorted| <= h2.Length && forall r :: r in sorted ==> r.tok < out.Length
    requires h13 as object != h2 as object && h13 as object != out as object && h2 as object != out as object
    modifies out, h13, h2
    ensures forall t :: 0 <= t < out.Length ==>
              out[t] == old(out[t]) + SlicesSum(Staged(pre, mid, down), sorted, counts, Not(Fits(counts, cap)), |counts|, t)
  {
    ghost var y := Staged(pre, mid, down);
    var segs, rows := BuildTables(counts, cap, |sorted|, tileGu);
    var segsD, rowsD := segs, rows;
    if tileDn != tileGu {
      segsD, rowsD := BuildTables(counts, cap, |sorted|, tileDn);
      RowTablesAgree(counts, FatRows(counts, cap), |sorted|, rows, rowsD);
    }
    TablesSchedule(counts, cap, |sorted|, tileGu, segs, rows);
    TablesSchedule(counts, cap, |sorted|, tileDn, segsD, rowsD);
    TablesReady(counts, cap, sorted, rows);
    GatherStage(h13, pre, sorted, rows);
    GateUpStage(h13, h2, mid, segs, rows);
    DownStage(out, h2, down, y, sorted, segsD, rowsD);
    RowsMapAll(counts, cap, sorted, rows);
    forall t | 0 <= t < out.Length
      ensures LiveSum(y, sorted, rows, rows.num, t) == SlicesSum(y, sorted, counts, Not(Fits(counts, cap)), |counts|, t)
    {
      LiveRowsAreFatSlices(y, counts, FatRows(counts, cap), cap, sorted, rows, |counts|, t);
    }
  }
}
