/** The reference Python loop of overlay/exl3.py (apply_exl3_python_loop): one pass per
    distinct raw expert id. */
module MoeLoop {
  import opened Common
  import opened MoeRoutes

  function OfRaw(raw: int): Route -> bool { (r: Route) => r.raw == raw }

  /** Routes whose raw id is done and whose local expert is wanted. */
  function DoneBy(done: set<int>, n: nat, only: nat -> bool): Route -> bool {
    (r: Route) => r.raw in done && r.loc < n && only(r.loc)
  }

  predicate Located(rs: seq<Route>, n: nat, emap: Option<seq<int>>) {
    forall r :: r in rs ==> r.loc == LoopLocal(r.raw, n, emap)
  }

  /** What is left to add to token `t` once the first `i` routes were visited. */
  function Pending(y: Expert, rs: seq<Route>, raw: int, i: nat, t: nat): real
    requires i <= |rs|
  {
    SumIf(y, rs[i..], OfRaw(raw), t)
  }

  lemma PendingStep(y: Expert, rs: seq<Route>, raw: int, i: nat, t: nat)
    requires i < |rs|
    ensures Pending(y, rs, raw, i, t)
            == (if rs[i].raw == raw then Term(y, rs[i], rs[i].loc, t) else 0.0) + Pending(y, rs, raw, i + 1, t)
  {
    assert rs[i..][0] == rs[i] && rs[i..][1..] == rs[i + 1..];
  }

  /** Add every matching route of one raw id. */
  method AddMatching(out: array<real>, y: Expert, rs: seq<Route>, raw: int, e: nat)
    requires forall r :: r in rs ==> r.tok < out.Length && (r.raw == raw ==> r.loc == e)
    modifies out
    ensures forall t :: 0 <= t < out.Length ==> out[t] == old(out[t]) + SumIf(y, rs, OfRaw(raw), t)
  {
    assert rs[0..] == rs;
    var i := 0;
    while i < |rs|
      invariant 0 <= i <= |rs|
      invariant forall t :: 0 <= t < out.Length ==> out[t] + Pending(y, rs, raw, i, t) == old(out[t]) + Pending(y, rs, raw, 0, t)
    {
      var r := rs[i];
      forall t | 0 <= t < out.Length
        ensures Pending(y, rs, raw, i, t) == (if r.raw == raw then Term(y, r, r.loc, t) else 0.0) + Pending(y, rs, raw, i + 1, t)
      {
        PendingStep(y, rs, raw, i, t);
      }
      if r.raw == raw {
        out[r.tok] := out[r.tok] + r.wt * y(e, r.tok);
      }
      i := i + 1;
    }
  }

  lemma OneMoreRaw(y: Expert, rs: seq<Route>, n: nat, emap: Option<seq<int>>, only: nat -> bool, done: set<int>, raw: int, t: nat)
    requires Located(rs, n, emap) && raw !in done
    ensures var e := LoopLocal(raw, n, emap);
            SumIf(y, rs, DoneBy(done + {raw}, n, only), t)
            == SumIf(y, rs, DoneBy(done, n, only), t) + (if e < n && only(e) then SumIf(y, rs, OfRaw(raw), t) else 0.0)
  {
    var e := LoopLocal(raw, n, emap);
    if e < n && only(e) {
      SumIfSplit(y, rs, DoneBy(done, n, only), OfRaw(raw), DoneBy(done + {raw}, n, only), t);
    } else {
      SumIfSame(y, rs, DoneBy(done, n, only), DoneBy(done + {raw}, n, only), t);
    }
  }

  lemma AllRaws(y: Expert, rs: seq<Route>, n: nat, only: nat -> bool, all: set<int>, t: nat)
    requires forall i :: 0 <= i < |rs| ==> rs[i].raw in all
    ensures SumIf(y, rs, DoneBy(all, n, only), t) == SumIf(y, rs, BelowOn(n, only), t)
  {
    SumIfSame(y, rs, DoneBy(all, n, only), BelowOn(n, only), t);
  }

  lemma NoRaws(y: Expert, rs: seq<Route>, n: nat, only: nat -> bool, t: nat)
    ensures SumIf(y, rs, DoneBy({}, n, only), t) == 0.0
  {
    SumIfNone(y, rs, DoneBy({}, n, only), t);
  }

  /** `apply_exl3_python_loop`: `torch.unique` yields each raw id once, in any order;
      `only` restricts the local experts. */
  method PythonLoop(out: array<real>, y: Expert, rs: seq<Route>, n: nat, emap: Option<seq<int>>, only: nat -> bool)
    requires (forall r :: r in rs ==> r.tok < out.Length) && Located(rs, n, emap)
    modifies out
    ensures forall t :: 0 <= t < out.Length ==> out[t] == old(out[t]) + SumIf(y, rs, BelowOn(n, only), t)
  {
    var all := set i | 0 <= i < |rs| :: rs[i].raw;
    var todo := all;
    ghost var done: set<int> := {};
    forall t | 0 <= t < out.Length ensures SumIf(y, rs, DoneBy({}, n, only), t) == 0.0 { NoRaws(y, rs, n, only, t); }
    while todo != {}
      invariant done + todo == all && done !! todo
      invariant forall t :: 0 <= t < out.Length ==> out[t] == old(out[t]) + SumIf(y, rs, DoneBy(done, n, only), t)
      decreases todo
    {
      var raw :| raw in todo;
      var e := LoopLocal(raw, n, emap);
      forall t | 0 <= t < out.Length
        ensures SumIf(y, rs, DoneBy(done + {raw}, n, only), t)
                == SumIf(y, rs, DoneBy(done, n, only), t) + (if e < n && only(e) then SumIf(y, rs, OfRaw(raw), t) else 0.0)
      {
        OneMoreRaw(y, rs, n, emap, only, done, raw, t);
      }
      if e < n && only(e) {
        AddMatching(out, y, rs, raw, e);
      }
      todo := todo - {raw};
      done := done + {raw};
    }
    assert done == all;
    forall t | 0 <= t < out.Length ensures SumIf(y, rs, DoneBy(all, n, only), t) == SumIf(y, rs, BelowOn(n, only), t) {
      AllRaws(y, rs, n, only, all, t);
    }
  }
}
