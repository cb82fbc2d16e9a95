/** The execution tiers of overlay/exl3.py over the sorted routes. Every tier adds its
    contributions into `out` in place. */
module MoeTiers {
  import opened Common
  import opened MoeRoutes
  import G = GroupedTables
  import Arith

  function Fits(counts: seq<nat>, cap: nat): nat -> bool { (e: nat) => e < |counts| && counts[e] <= cap }

  /** What the experts below `k` chosen by `on` add when run on their slices of `rows`. */
  function SlicesSum(y: Expert, rows: seq<Route>, counts: seq<nat>, on: nat -> bool, k: nat, t: nat): real
    requires k <= |counts| && Off(counts, |counts|) <= |rows|
  {
    if k == 0 then 0.0
    else
      G.OffMonotone(counts, k, |counts|);
      SlicesSum(y, rows, counts, on, k - 1, t)
      + (if on(k - 1) then RowsSum(y, rows[Off(counts, k - 1)..Off(counts, k)], k - 1, t) else 0.0)
  }

  /** `index_add_` of expert `e` on consecutive rows. */
  method AddRows(out: array<real>, y: Expert, rows: seq<Route>, e: nat)
    requires forall r :: r in rows ==> r.tok < out.Length
    modifies out
    ensures forall t :: 0 <= t < out.Length ==> out[t] == old(out[t]) + RowsSum(y, rows, e, t)
  {
    var i := 0;
    while i < |rows|
      invariant 0 <= i <= |rows|
      invariant forall t :: 0 <= t < out.Length ==> out[t] + RowsSum(y, rows[i..], e, t) == old(out[t]) + RowsSum(y, rows, e, t)
    {
      var r := rows[i];
      assert rows[i..][0] == r && rows[i..][1..] == rows[i + 1..];
      out[r.tok] := out[r.tok] + r.wt * y(e, r.tok);
      i := i + 1;
    }
  }

  /** The native fused kernel, by its contract: it runs exactly the experts whose count
      fits the temporaries, each on its slice of the sorted rows. */
  method Launch(out: array<real>, y: Expert, cap: nat, counts: seq<nat>, rows: seq<Route>)
    requires Off(counts, |counts|) <= |rows| && forall r :: r in rows ==> r.tok < out.Length
    modifies out
    ensures forall t :: 0 <= t < out.Length ==> out[t] == old(out[t]) + SlicesSum(y, rows, counts, Fits(counts, cap), |counts|, t)
  {
    RunSlices(out, y, Fits(counts, cap), counts, rows);
  }

  /** `apply_exl3_sorted_fat`: the over-full experts on contiguous slices of the sort. */
  method SortedFat(out: array<real>, y: Expert, cap: nat, counts: seq<nat>, rows: seq<Route>)
    requires Off(counts, |counts|) <= |rows| && forall r :: r in rows ==> r.tok < out.Length
    modifies out
    ensures forall t :: 0 <= t < out.Length ==> out[t] == old(out[t]) + SlicesSum(y, rows, counts, Not(Fits(counts, cap)), |counts|, t)
  {
    RunSlices(out, y, Not(Fits(counts, cap)), counts, rows);
  }

  method RunSlices(out: array<real>, y: Expert, on: nat -> bool, counts: seq<nat>, rows: seq<Route>)
    requires Off(counts, |counts|) <= |rows| && forall r :: r in rows ==> r.tok < out.Length
    modifies out
    ensures forall t :: 0 <= t < out.Length ==> out[t] == old(out[t]) + SlicesSum(y, rows, counts, on, |counts|, t)
  {
    var e, offset := 0, 0;
    while e < |counts|
      invariant 0 <= e <= |counts| && offset == Off(counts, e) <= |rows|
      invariant forall t :: 0 <= t < out.Length ==> out[t] == old(out[t]) + SlicesSum(y, rows, counts, on, e, t)
    {
      G.OffMonotone(counts, e + 1, |counts|);
      var start := offset;
      offset := offset + counts[e];
      if on(e) {
        AddRows(out, y, rows[start..offset], e);
      }
      e := e + 1;
    }
  }

  /** On the sorted routes each slice is its expert's naive sum. */
  lemma {:induction false} SlicesAreExperts(y: Expert, sorted: seq<Route>, rs: seq<Route>, counts: seq<nat>, on: nat -> bool, k: nat, t: nat)
    requires IsSortOf(sorted, rs) && IsCounts(counts, rs) && k <= |counts| && Off(counts, |counts|) <= |sorted|
    ensures SlicesSum(y, sorted, counts, on, k, t) == SumExperts(y, rs, on, k, t)
  {
    if k > 0 {
      SlicesAreExperts(y, sorted, rs, counts, on, k - 1, t);
      SegmentSum(y, sorted, rs, counts, k - 1, t);
    }
  }

  // ----- the batched tier -----

  /** An expert as its activation half and its down projection. */
  function Compose<A>(up: (nat, nat) -> A, down: (nat, A) -> real): Expert { (e: nat, t: nat) => down(e, up(e, t)) }

  /** `apply_exl3_batched_fat`: gather and activate into persistent scratch, then
      scatter the down projection. */
  method BatchedFat<A>(out: array<real>, act: array<A>, up: (nat, nat) -> A, down: (nat, A) -> real,
                       cap: nat, counts: seq<nat>, rows: seq<Route>)
    requires Off(counts, |counts|) <= |rows| && (forall r :: r in rows ==> r.tok < out.Length)
    requires (forall e :: 0 <= e < |counts| ==> counts[e] <= act.Length) && act as object != out as object
    modifies out, act
    ensures forall t :: 0 <= t < out.Length ==>
              out[t] == old(out[t]) + SlicesSum(Compose(up, down), rows, counts, Not(Fits(counts, cap)), |counts|, t)
  {
    var e, offset := 0, 0;
    while e < |counts|
      invariant 0 <= e <= |counts| && offset == Off(counts, e) <= |rows|
      invariant forall t :: 0 <= t < out.Length ==>
                  out[t] == old(out[t]) + SlicesSum(Compose(up, down), rows, counts, Not(Fits(counts, cap)), e, t)
    {
      G.OffMonotone(counts, e + 1, |counts|);
      var start := offset;
      offset := offset + counts[e];
      if counts[e] > cap {
        var slice := rows[start..offset];
        Activate(act, up, slice, e);
        Scatter(out, act, up, down, slice, e);
      }
      e := e + 1;
    }
  }

  method Activate<A>(act: array<A>, up: (nat, nat) -> A, rows: seq<Route>, e: nat)
    requires |rows| <= act.Length
    modifies act
    ensures forall i :: 0 <= i < |rows| ==> act[i] == up(e, rows[i].tok)
  {
    var i := 0;
    while i < |rows|
      invariant 0 <= i <= |rows|
      invariant forall j :: 0 <= j < i ==> act[j] == up(e, rows[j].tok)
    {
      act[i] := up(e, rows[i].tok);
      i := i + 1;
    }
  }

  method Scatter<A>(out: array<real>, act: array<A>, ghost up: (nat, nat) -> A, down: (nat, A) -> real, rows: seq<Route>, e: nat)
    requires |rows| <= act.Length && forall i :: 0 <= i < |rows| ==> act[i] == up(e, rows[i].tok)
    requires (forall r :: r in rows ==> r.tok < out.Length) && act as object != out as object
    modifies out
    ensures forall t :: 0 <= t < out.Length ==> out[t] == old(out[t]) + RowsSum(Compose(up, down), rows, e, t)
    ensures act[..] == old(act[..])
  {
    var i := 0;
    while i < |rows|
      invariant 0 <= i <= |rows| && act[..] == old(act[..])
      invariant forall t :: 0 <= t < out.Length ==>
                  out[t] + RowsSum(Compose(up, down), rows[i..], e, t) == old(out[t]) + RowsSum(Compose(up, down), rows, e, t)
    {
      var r := rows[i];
      assert rows[i..][0] == r && rows[i..][1..] == rows[i + 1..];
      assert act[i] == old(act[..])[i];
      out[r.tok] := out[r.tok] + r.wt * down(e, act[i]);
      i := i + 1;
    }
  }
}
