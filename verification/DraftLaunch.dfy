/** The launch of `_cache_draft_logits_kernel` (overlay/dflash2_speculator.py) element by
    element: every instance loads its cached ids, erases, writes and stores, and the loads
    and stores of all instances interleave at will. */
module DraftLaunch {
  import opened DraftLogits
  import Arith

  /** The flat buffers, and the ids each instance has loaded so far. */
  datatype Memory = Memory(logits: seq<Score>, cached: seq<nat>, loaded: map<(nat, nat), nat>)

  /** What lane `k` of instance `i` does: load an old id, erase there, write the new score,
      store the new id. */
  datatype Event =
    | Load(i: nat, k: nat)
    | EraseOld(i: nat, k: nat)
    | WriteNew(i: nat, k: nat)
    | StoreId(i: nat, k: nat)

  function Phase(e: Event): nat {
    match e
    case Load(_, _) => 0
    case EraseOld(_, _) => 1
    case WriteNew(_, _) => 2
    case StoreId(_, _) => 3
  }

  function PairOf(w: Work): Pair
    requires Active(w)
  {
    (w.req, w.step)
  }

  predicate WorkFits(l: Layout, w: Work) {
    Active(w) ==> InLayout(l, PairOf(w)) && |w.ids| == |w.scores| == l.topK && InVocab(w.ids, l.vocab) && Distinct(w.ids)
  }

  predicate BatchFits(l: Layout, batch: seq<Work>) { forall i :: 0 <= i < |batch| ==> WorkFits(l, batch[i]) }

  /** An event of some active instance. */
  predicate Issued(l: Layout, batch: seq<Work>, e: Event) { e.i < |batch| && Active(batch[e.i]) && e.k < l.topK }

  function Put<T>(s: seq<T>, at: nat, v: T): seq<T> { if at < |s| then s[at := v] else s }

  function OldId(m: Memory, i: nat, k: nat): nat { if (i, k) in m.loaded then m.loaded[(i, k)] else 0 }

  function Do(l: Layout, batch: seq<Work>, m: Memory, e: Event): Memory
    requires BatchFits(l, batch) && Issued(l, batch, e)
  {
    var w := batch[e.i];
    var p := PairOf(w);
    match e
    case Load(i, k) =>
      var x := CacheBase(l, p) + k;
      m.(loaded := m.loaded[(i, k) := if x < |m.cached| then m.cached[x] else 0])
    case EraseOld(i, k) => m.(logits := Put(m.logits, Base(l, p) + OldId(m, i, k), NegInf))
    case WriteNew(i, k) => m.(logits := Put(m.logits, Base(l, p) + w.ids[k], Val(w.scores[k])))
    case StoreId(i, k) => m.(cached := Put(m.cached, CacheBase(l, p) + k, w.ids[k]))
  }

  /** Memory after the first `n` events. */
  function After(l: Layout, batch: seq<Work>, m: Memory, es: seq<Event>, n: nat): Memory
    requires BatchFits(l, batch) && n <= |es| && AllIssued(l, batch, es)
  {
    if n == 0 then m else Do(l, batch, After(l, batch, m, es, n - 1), es[n - 1])
  }

  predicate AllIssued(l: Layout, batch: seq<Work>, es: seq<Event>) { forall n :: 0 <= n < |es| ==> Issued(l, batch, es[n]) }

  /** All loads and stores of all active instances, in any order that keeps the four
      statements of each instance apart; lanes of one statement may go in any order. */
  ghost predicate Interleaves(l: Layout, batch: seq<Work>, es: seq<Event>) {
    && AllIssued(l, batch, es)
    && (forall e: Event :: Issued(l, batch, e) ==> e in es)
    && (forall a, b :: 0 <= a < b < |es| && es[a].i == es[b].i ==> Phase(es[a]) <= Phase(es[b]))
  }

  predicate Done(es: seq<Event>, n: nat, e: Event) { n <= |es| && e in es[..n] }

  lemma DoneStep(es: seq<Event>, n: nat, e: Event)
    requires n < |es|
    ensures Done(es, n + 1, e) <==> Done(es, n, e) || e == es[n]
  {
    assert es[..n + 1] == es[..n] + [es[n]];
  }

  /** What an earlier statement of the same instance does is done by now ... */
  lemma EarlierDone(l: Layout, batch: seq<Work>, es: seq<Event>, n: nat, e: Event)
    requires Interleaves(l, batch, es) && n < |es| && Issued(l, batch, e) && e.i == es[n].i && Phase(e) < Phase(es[n])
    ensures Done(es, n, e)
  {
    var a :| 0 <= a < |es| && es[a] == e;
    if a < n {
      assert es[..n][a] == e;
    }
  }

  /** ... and what a later one does is not. */
  lemma LaterNotDone(l: Layout, batch: seq<Work>, es: seq<Event>, n: nat, e: Event)
    requires Interleaves(l, batch, es) && n < |es| && e.i == es[n].i && Phase(e) > Phase(es[n])
    ensures !Done(es, n, e)
  {
    forall a | 0 <= a < n ensures es[..n][a] != e { assert es[..n][a] == es[a]; }
  }

  // ----- one instance, whatever the others do -----

  predicate BuffersFit(l: Layout, m: Memory) {
    ValidLayout(l) && |m.logits| == l.reqs * l.stride0 && l.reqs * l.steps >= 0 && |m.cached| == l.reqs * l.steps * l.topK
  }

  ghost predicate Erased(es: seq<Event>, n: nat, i: nat, had: seq<nat>, t: nat) {
    exists k :: 0 <= k < |had| && had[k] == t && Done(es, n, EraseOld(i, k))
  }

  predicate Unwritten(es: seq<Event>, n: nat, i: nat, ids: seq<nat>, t: nat) {
    forall k :: 0 <= k < |ids| && ids[k] == t ==> !Done(es, n, WriteNew(i, k))
  }

  /** Logit `t` after `n` events: written, else erased, else as it was. */
  ghost predicate LogitOk(w: Work, i: nat, es: seq<Event>, n: nat, row: Row, v: Score, t: nat)
    requires |w.ids| == |w.scores| && t < |row.logits|
  {
    && (forall k :: 0 <= k < |w.ids| && w.ids[k] == t && Done(es, n, WriteNew(i, k)) ==> v == Val(w.scores[k]))
    && (Unwritten(es, n, i, w.ids, t) ==> v == if Erased(es, n, i, row.ids, t) then NegInf else row.logits[t])
  }

  ghost predicate LogitAt(l: Layout, w: Work, i: nat, es: seq<Event>, n: nat, row: Row, m: Memory, t: nat)
    requires Active(w)
  {
    var x := Base(l, PairOf(w)) + t;
    |w.ids| == |w.scores| && t < |row.logits| && x < |m.logits| && LogitOk(w, i, es, n, row, m.logits[x], t)
  }

  /** Cached id `k`, stored or not, and what was loaded of it. */
  predicate IdAt(l: Layout, w: Work, i: nat, es: seq<Event>, n: nat, row: Row, m: Memory, k: nat)
    requires Active(w)
  {
    var x := CacheBase(l, PairOf(w)) + k;
    && k < |w.ids| && k < |row.ids| && x < |m.cached|
    && m.cached[x] == (if Done(es, n, StoreId(i, k)) then w.ids[k] else row.ids[k])
    && (Done(es, n, Load(i, k)) ==> (i, k) in m.loaded && m.loaded[(i, k)] == row.ids[k])
  }

  /** The row of instance `i` after `n` events. */
  ghost predicate RowOk(l: Layout, w: Work, i: nat, es: seq<Event>, n: nat, row: Row, m: Memory)
    requires Active(w)
  {
    && |row.logits| == l.vocab && |row.ids| == l.topK
    && (forall t: nat :: t < l.vocab ==> LogitAt(l, w, i, es, n, row, m, t))
    && (forall k: nat :: k < l.topK ==> IdAt(l, w, i, es, n, row, m, k))
  }

  lemma RowFits(l: Layout, p: Pair, m: Memory)
    requires BuffersFit(l, m) && InLayout(l, p)
    ensures Base(l, p) + l.vocab <= |m.logits| && CacheBase(l, p) + l.topK <= |m.cached|
    ensures var row := RowOf(l, m.logits, m.cached, p);
            && |row.logits| == l.vocab && |row.ids| == l.topK
            && (forall t: nat :: t < l.vocab ==> row.logits[t] == m.logits[Base(l, p) + t])
            && (forall k: nat :: k < l.topK ==> row.ids[k] == m.cached[CacheBase(l, p) + k])
  {
    BaseFits(l, p);
    CacheFits(l, p);
  }

  lemma RowOkStart(l: Layout, w: Work, i: nat, es: seq<Event>, m: Memory)
    requires BuffersFit(l, m) && Active(w) && WorkFits(l, w)
    ensures RowOk(l, w, i, es, 0, RowOf(l, m.logits, m.cached, PairOf(w)), m)
  {
    RowFits(l, PairOf(w), m);
    assert es[..0] == [];
  }

  /** Events elsewhere do not count for instance `i`. */
  lemma DoneElsewhere(es: seq<Event>, n: nat, i: nat, w: Work, row: Row, v: Score, t: nat)
    requires n < |es| && es[n].i != i && |w.ids| == |w.scores| && t < |row.logits| && LogitOk(w, i, es, n, row, v, t)
    ensures LogitOk(w, i, es, n + 1, row, v, t)
  {
    forall k: nat ensures Done(es, n + 1, WriteNew(i, k)) == Done(es, n, WriteNew(i, k)) { DoneStep(es, n, WriteNew(i, k)); }
    forall k: nat ensures Done(es, n + 1, EraseOld(i, k)) == Done(es, n, EraseOld(i, k)) { DoneStep(es, n, EraseOld(i, k)); }
  }

  /** What an event of `p`'s instance may change. */
  ghost predicate Within(l: Layout, p: Pair, i: nat, m: Memory, m2: Memory) {
    && |m2.logits| == |m.logits| && |m2.cached| == |m.cached|
    && (forall x :: 0 <= x < |m.logits| && !(Base(l, p) <= x < Base(l, p) + l.vocab) ==> m2.logits[x] == m.logits[x])
    && (forall x :: 0 <= x < |m.cached| && !(CacheBase(l, p) <= x < CacheBase(l, p) + l.topK) ==> m2.cached[x] == m.cached[x])
    && (forall j: nat, k: nat :: j != i ==> SameLoad(m, m2, j, k))
  }

  predicate SameLoad(m: Memory, m2: Memory, j: nat, k: nat) {
    ((j, k) in m2.loaded <==> (j, k) in m.loaded) && ((j, k) in m.loaded ==> m2.loaded[(j, k)] == m.loaded[(j, k)])
  }

  lemma LoadedOld(l: Layout, batch: seq<Work>, es: seq<Event>, n: nat, row: Row, m: Memory)
    requires BatchFits(l, batch) && Interleaves(l, batch, es) && n < |es| && es[n].EraseOld? && BuffersFit(l, m)
    requires RowOk(l, batch[es[n].i], es[n].i, es, n, row, m)
    ensures OldId(m, es[n].i, es[n].k) == row.ids[es[n].k]
  {
    var i, k := es[n].i, es[n].k;
    EarlierDone(l, batch, es, n, Load(i, k));
    assert IdAt(l, batch[i], i, es, n, row, m, k);
  }

  lemma DoStaysWithin(l: Layout, batch: seq<Work>, es: seq<Event>, n: nat, row: Row, m: Memory)
    requires BatchFits(l, batch) && Interleaves(l, batch, es) && n < |es| && BuffersFit(l, m)
    requires RowOk(l, batch[es[n].i], es[n].i, es, n, row, m) && InVocab(row.ids, l.vocab)
    ensures Within(l, PairOf(batch[es[n].i]), es[n].i, m, Do(l, batch, m, es[n]))
  {
    if es[n].EraseOld? {
      LoadedOld(l, batch, es, n, row, m);
    }
  }

  lemma OtherStep(l: Layout, batch: seq<Work>, es: seq<Event>, n: nat, i: nat, row: Row, m: Memory, m2: Memory)
    requires BatchFits(l, batch) && n < |es| && BuffersFit(l, m) && BuffersFit(l, m2) && Issued(l, batch, es[n]) && es[n].i != i
    requires i < |batch| && Active(batch[i]) && PairOf(batch[i]) != PairOf(batch[es[n].i])
    requires Within(l, PairOf(batch[es[n].i]), es[n].i, m, m2) && RowOk(l, batch[i], i, es, n, row, m)
    ensures RowOk(l, batch[i], i, es, n + 1, row, m2)
  {
    var w, p, q, next := batch[i], PairOf(batch[es[n].i]), PairOf(batch[i]), n + 1;
    forall t: nat | t < l.vocab ensures LogitAt(l, w, i, es, next, row, m2, t) {
      assert LogitAt(l, w, i, es, n, row, m, t);
      OtherLogit(l, p, q, t);
      DoneElsewhere(es, n, i, w, row, m.logits[Base(l, q) + t], t);
    }
    forall k: nat | k < l.topK ensures IdAt(l, w, i, es, next, row, m2, k) {
      assert IdAt(l, w, i, es, n, row, m, k);
      OtherId(l, p, q, k);
      DoneStep(es, n, StoreId(i, k));
      DoneStep(es, n, Load(i, k));
      assert SameLoad(m, m2, i, k);
    }
  }

  // ----- the instance's own events -----

  lemma OwnIds(l: Layout, batch: seq<Work>, es: seq<Event>, n: nat, row: Row, m: Memory, k: nat)
    requires BatchFits(l, batch) && Interleaves(l, batch, es) && n < |es| && BuffersFit(l, m) && k < l.topK
    requires RowOk(l, batch[es[n].i], es[n].i, es, n, row, m)
    ensures IdAt(l, batch[es[n].i], es[n].i, es, n + 1, row, Do(l, batch, m, es[n]), k)
  {
    var i := es[n].i;
    assert IdAt(l, batch[i], i, es, n, row, m, k);
    DoneStep(es, n, StoreId(i, k));
    DoneStep(es, n, Load(i, k));
    if es[n].Load? {
      LaterNotDone(l, batch, es, n, StoreId(i, k));
    }
  }

  lemma OwnLogit(l: Layout, batch: seq<Work>, es: seq<Event>, n: nat, row: Row, m: Memory, t: nat)
    requires BatchFits(l, batch) && Interleaves(l, batch, es) && n < |es| && BuffersFit(l, m) && t < l.vocab
    requires RowOk(l, batch[es[n].i], es[n].i, es, n, row, m) && InVocab(row.ids, l.vocab)
    ensures LogitAt(l, batch[es[n].i], es[n].i, es, n + 1, row, Do(l, batch, m, es[n]), t)
  {
    var i := es[n].i;
    var w, b := batch[i], Base(l, PairOf(batch[i]));
    assert LogitAt(l, w, i, es, n, row, m, t);
    var v, v2 := m.logits[b + t], Do(l, batch, m, es[n]).logits[b + t];
    match es[n]
    case Load(_, _) => NoLogitEvent(w, es, n, row, v, t);
    case StoreId(_, _) => NoLogitEvent(w, es, n, row, v, t);
    case EraseOld(_, k) =>
      LoadedOld(l, batch, es, n, row, m);
      ErasedLogit(l, batch, es, n, row, v, v2, t);
    case WriteNew(_, k) => WrittenLogit(w, es, n, row, v, v2, t);
  }

  lemma NoLogitEvent(w: Work, es: seq<Event>, n: nat, row: Row, v: Score, t: nat)
    requires n < |es| && (es[n].Load? || es[n].StoreId?) && |w.ids| == |w.scores| && t < |row.logits| && LogitOk(w, es[n].i, es, n, row, v, t)
    ensures LogitOk(w, es[n].i, es, n + 1, row, v, t)
  {
    var i := es[n].i;
    forall k: nat ensures Done(es, n + 1, WriteNew(i, k)) == Done(es, n, WriteNew(i, k)) { DoneStep(es, n, WriteNew(i, k)); }
    forall k: nat ensures Done(es, n + 1, EraseOld(i, k)) == Done(es, n, EraseOld(i, k)) { DoneStep(es, n, EraseOld(i, k)); }
  }

  lemma ErasedLogit(l: Layout, batch: seq<Work>, es: seq<Event>, n: nat, row: Row, v: Score, v2: Score, t: nat)
    requires BatchFits(l, batch) && Interleaves(l, batch, es) && n < |es| && es[n].EraseOld? && |row.ids| == l.topK && t < |row.logits|
    requires v2 == if row.ids[es[n].k] == t then NegInf else v
    requires LogitOk(batch[es[n].i], es[n].i, es, n, row, v, t)
    ensures LogitOk(batch[es[n].i], es[n].i, es, n + 1, row, v2, t)
  {
    var i := es[n].i;
    var w := batch[i];
    forall k: nat ensures !Done(es, n + 1, WriteNew(i, k)) && !Done(es, n, WriteNew(i, k)) {
      DoneStep(es, n, WriteNew(i, k));
      LaterNotDone(l, batch, es, n, WriteNew(i, k));
    }
    forall k: nat ensures Done(es, n + 1, EraseOld(i, k)) <==> Done(es, n, EraseOld(i, k)) || k == es[n].k { DoneStep(es, n, EraseOld(i, k)); }
    assert Unwritten(es, n, i, w.ids, t);
    if row.ids[es[n].k] == t {
      assert Done(es, n + 1, EraseOld(i, es[n].k));
      assert Erased(es, n + 1, i, row.ids, t);
    } else {
      assert Erased(es, n + 1, i, row.ids, t) <==> Erased(es, n, i, row.ids, t);
    }
  }

  lemma WrittenLogit(w: Work, es: seq<Event>, n: nat, row: Row, v: Score, v2: Score, t: nat)
    requires n < |es| && es[n].WriteNew? && es[n].k < |w.ids| == |w.scores| && Distinct(w.ids) && t < |row.logits|
    requires v2 == if w.ids[es[n].k] == t then Val(w.scores[es[n].k]) else v
    requires LogitOk(w, es[n].i, es, n, row, v, t)
    ensures LogitOk(w, es[n].i, es, n + 1, row, v2, t)
  {
    var i := es[n].i;
    forall k: nat ensures Done(es, n + 1, WriteNew(i, k)) <==> Done(es, n, WriteNew(i, k)) || k == es[n].k { DoneStep(es, n, WriteNew(i, k)); }
    forall k: nat ensures Done(es, n + 1, EraseOld(i, k)) == Done(es, n, EraseOld(i, k)) { DoneStep(es, n, EraseOld(i, k)); }
    if w.ids[es[n].k] == t {
      assert Done(es, n + 1, WriteNew(i, es[n].k));
      assert !Unwritten(es, n + 1, i, w.ids, t);
    } else {
      assert Unwritten(es, n + 1, i, w.ids, t) ==> Unwritten(es, n, i, w.ids, t);
      assert Erased(es, n + 1, i, row.ids, t) <==> Erased(es, n, i, row.ids, t);
    }
  }

  lemma OwnStep(l: Layout, batch: seq<Work>, es: seq<Event>, n: nat, row: Row, m: Memory)
    requires BatchFits(l, batch) && Interleaves(l, batch, es) && n < |es| && BuffersFit(l, m)
    requires RowOk(l, batch[es[n].i], es[n].i, es, n, row, m) && InVocab(row.ids, l.vocab)
    ensures BuffersFit(l, Do(l, batch, m, es[n])) && RowOk(l, batch[es[n].i], es[n].i, es, n + 1, row, Do(l, batch, m, es[n]))
  {
    var m2, w, i, next := Do(l, batch, m, es[n]), batch[es[n].i], es[n].i, n + 1;
    forall t: nat | t < l.vocab ensures LogitAt(l, w, i, es, next, row, m2, t) { OwnLogit(l, batch, es, n, row, m, t); }
    forall k: nat | k < l.topK ensures IdAt(l, w, i, es, next, row, m2, k) { OwnIds(l, batch, es, n, row, m, k); }
  }

  // ----- all instances -----

  /** In no active row. */
  predicate Outside(l: Layout, batch: seq<Work>, x: nat) {
    forall i :: 0 <= i < |batch| && Active(batch[i]) ==> !(Base(l, PairOf(batch[i])) <= x < Base(l, PairOf(batch[i])) + l.vocab)
  }

  predicate OutsideCache(l: Layout, batch: seq<Work>, x: nat) {
    forall i :: 0 <= i < |batch| && Active(batch[i]) ==> !(CacheBase(l, PairOf(batch[i])) <= x < CacheBase(l, PairOf(batch[i])) + l.topK)
  }

  /** Rows start with ids of the vocabulary. */
  ghost predicate RowsReady(l: Layout, m: Memory) {
    BuffersFit(l, m) && forall p :: InLayout(l, p) ==> InVocab(RowOf(l, m.logits, m.cached, p).ids, l.vocab)
  }

  ghost predicate LaunchOk(l: Layout, batch: seq<Work>, m: Memory, es: seq<Event>, n: nat, m2: Memory)
    requires RowsReady(l, m) && BatchFits(l, batch)
  {
    && BuffersFit(l, m2)
    && (forall i: nat :: i < |batch| && Active(batch[i]) ==> InstanceOk(l, batch[i], m, i, es, n, m2))
    && (forall x: nat :: x < |m.logits| && Outside(l, batch, x) ==> m2.logits[x] == m.logits[x])
    && (forall x: nat :: x < |m.cached| && OutsideCache(l, batch, x) ==> m2.cached[x] == m.cached[x])
  }

  ghost predicate InstanceOk(l: Layout, w: Work, m: Memory, i: nat, es: seq<Event>, n: nat, m2: Memory)
    requires Active(w)
  {
    RowOk(l, w, i, es, n, RowOf(l, m.logits, m.cached, PairOf(w)), m2)
  }

  lemma LaunchStep(l: Layout, batch: seq<Work>, m: Memory, es: seq<Event>, n: nat, m2: Memory, m3: Memory)
    requires RowsReady(l, m) && BatchFits(l, batch) && DistinctPairs(batch) && Interleaves(l, batch, es) && 0 < n <= |es|
    requires LaunchOk(l, batch, m, es, n - 1, m2) && m3 == Do(l, batch, m2, es[n - 1])
    ensures LaunchOk(l, batch, m, es, n, m3)
  {
    var j, n0 := es[n - 1].i, n - 1;
    var p := PairOf(batch[j]);
    var row := RowOf(l, m.logits, m.cached, p);
    assert InstanceOk(l, batch[j], m, j, es, n0, m2);
    OwnStep(l, batch, es, n0, row, m2);
    DoStaysWithin(l, batch, es, n0, row, m2);
    forall i: nat | i < |batch| && Active(batch[i]) ensures InstanceOk(l, batch[i], m, i, es, n, m3) {
      if i != j {
        assert InstanceOk(l, batch[i], m, i, es, n0, m2);
        OtherStep(l, batch, es, n0, i, RowOf(l, m.logits, m.cached, PairOf(batch[i])), m2, m3);
      }
    }
  }

  lemma LaunchStart(l: Layout, batch: seq<Work>, m: Memory, es: seq<Event>)
    requires RowsReady(l, m) && BatchFits(l, batch)
    ensures LaunchOk(l, batch, m, es, 0, m)
  {
    forall i: nat | i < |batch| && Active(batch[i]) ensures InstanceOk(l, batch[i], m, i, es, 0, m) { RowOkStart(l, batch[i], i, es, m); }
  }

  lemma {:induction false} LaunchKeeps(l: Layout, batch: seq<Work>, m: Memory, es: seq<Event>, n: nat)
    requires RowsReady(l, m) && BatchFits(l, batch) && DistinctPairs(batch) && Interleaves(l, batch, es) && n <= |es|
    ensures LaunchOk(l, batch, m, es, n, After(l, batch, m, es, n))
  {
    if n == 0 {
      LaunchStart(l, batch, m, es);
    } else {
      LaunchKeeps(l, batch, m, es, n - 1);
      LaunchStep(l, batch, m, es, n, After(l, batch, m, es, n - 1), After(l, batch, m, es, n));
    }
  }

  lemma AllDone(l: Layout, batch: seq<Work>, es: seq<Event>, e: Event)
    requires Interleaves(l, batch, es) && Issued(l, batch, e)
    ensures Done(es, |es|, e)
  {
    assert es[..|es|] == es;
  }

  /** Once all events are done the row is updated. */
  lemma DoneRow(l: Layout, batch: seq<Work>, m: Memory, es: seq<Event>, m2: Memory, i: nat)
    requires RowsReady(l, m) && BatchFits(l, batch) && Interleaves(l, batch, es) && i < |batch| && Active(batch[i]) && BuffersFit(l, m2)
    requires InstanceOk(l, batch[i], m, i, es, |es|, m2)
    ensures var row := RowOf(l, m.logits, m.cached, PairOf(batch[i]));
            && |row.logits| == l.vocab && InVocab(row.ids, l.vocab)
            && RowOf(l, m2.logits, m2.cached, PairOf(batch[i])) == Update(row, batch[i].ids, batch[i].scores)
  {
    var w, p := batch[i], PairOf(batch[i]);
    var row := RowOf(l, m.logits, m.cached, p);
    RowFits(l, p, m);
    RowFits(l, p, m2);
    var got, want := RowOf(l, m2.logits, m2.cached, p), Update(row, w.ids, w.scores);
    forall k | 0 <= k < l.topK ensures got.ids[k] == want.ids[k] {
      AllDone(l, batch, es, StoreId(i, k));
      assert IdAt(l, w, i, es, |es|, row, m2, k);
    }
    forall t | 0 <= t < l.vocab ensures got.logits[t] == want.logits[t] {
      assert LogitAt(l, w, i, es, |es|, row, m2, t);
      DoneLogit(l, batch, es, i, row, got.logits[t], t);
    }
    assert got.ids == want.ids && got.logits == want.logits;
  }

  lemma DoneLogit(l: Layout, batch: seq<Work>, es: seq<Event>, i: nat, row: Row, v: Score, t: nat)
    requires BatchFits(l, batch) && Interleaves(l, batch, es) && i < |batch| && Active(batch[i])
    requires |row.logits| == l.vocab && |row.ids| == l.topK && InVocab(row.ids, l.vocab) && t < l.vocab
    requires LogitOk(batch[i], i, es, |es|, row, v, t)
    ensures v == Update(row, batch[i].ids, batch[i].scores).logits[t]
  {
    var w := batch[i];
    var erased := Erase(row.logits, row.ids);
    if k :| 0 <= k < |w.ids| && w.ids[k] == t {
      AllDone(l, batch, es, WriteNew(i, k));
      WriteAt(erased, w.ids, w.scores, k);
    } else {
      assert Unwritten(es, |es|, i, w.ids, t);
      WriteElsewhere(erased, w.ids, w.scores, t);
      EraseAt(row.logits, row.ids, t);
      if k :| 0 <= k < |row.ids| && row.ids[k] == t {
        AllDone(l, batch, es, EraseOld(i, k));
        assert Erased(es, |es|, i, row.ids, t);
      }
    }
  }

  // ----- the launch as a whole -----

  /** Inactive rows are as before. */
  lemma IdleRow(l: Layout, batch: seq<Work>, m: Memory, es: seq<Event>, m2: Memory, p: Pair)
    requires RowsReady(l, m) && BatchFits(l, batch) && LaunchOk(l, batch, m, es, |es|, m2) && InLayout(l, p)
    requires forall i :: 0 <= i < |batch| ==> !(Active(batch[i]) && IsFor(batch[i], p))
    ensures RowOf(l, m2.logits, m2.cached, p) == RowOf(l, m.logits, m.cached, p)
  {
    RowFits(l, p, m);
    RowFits(l, p, m2);
    var was, got := RowOf(l, m.logits, m.cached, p), RowOf(l, m2.logits, m2.cached, p);
    forall t | 0 <= t < l.vocab ensures got.logits[t] == was.logits[t] {
      forall i | 0 <= i < |batch| && Active(batch[i])
        ensures !(Base(l, PairOf(batch[i])) <= Base(l, p) + t < Base(l, PairOf(batch[i])) + l.vocab)
      {
        OtherLogit(l, PairOf(batch[i]), p, t);
      }
      assert Outside(l, batch, Base(l, p) + t);
    }
    forall k | 0 <= k < l.topK ensures got.ids[k] == was.ids[k] {
      forall i | 0 <= i < |batch| && Active(batch[i])
        ensures !(CacheBase(l, PairOf(batch[i])) <= CacheBase(l, p) + k < CacheBase(l, PairOf(batch[i])) + l.topK)
      {
        OtherId(l, PairOf(batch[i]), p, k);
      }
      assert OutsideCache(l, batch, CacheBase(l, p) + k);
    }
    assert got.logits == was.logits && got.ids == was.ids;
  }

  ghost predicate Ready(l: Layout, batch: seq<Work>, m: Memory) {
    BuffersFit(l, m) && StateOk(StateOf(l, m.logits, m.cached), l.vocab) && BatchFits(l, batch) && DistinctPairs(batch)
  }

  lemma ReadyRows(l: Layout, batch: seq<Work>, m: Memory)
    requires Ready(l, batch, m)
    ensures RowsReady(l, m) && BatchOk(StateOf(l, m.logits, m.cached), l.vocab, batch)
  {
    var s := StateOf(l, m.logits, m.cached);
    forall p | InLayout(l, p) ensures InVocab(RowOf(l, m.logits, m.cached, p).ids, l.vocab) {
      assert (p.0, p.1) in s && p == (p.0, p.1);
      assert Clean(s[p]);
    }
    forall i | 0 <= i < |batch| ensures WorkOk(s, l.vocab, batch[i]) {
      assert WorkFits(l, batch[i]);
    }
  }

  /** Main theorem: whatever the interleaving of the loads and stores of all instances,
      the rows afterwards are those of the call that runs whole instances in turn. */
  lemma AnyInterleavingIsCall(l: Layout, batch: seq<Work>, m: Memory, es: seq<Event>)
    requires Ready(l, batch, m) && Interleaves(l, batch, es)
    ensures var m2, s := After(l, batch, m, es, |es|), StateOf(l, m.logits, m.cached);
            BatchOk(s, l.vocab, batch) && StateOf(l, m2.logits, m2.cached) == Call(s, l.vocab, batch)
  {
    ReadyRows(l, batch, m);
    LaunchKeeps(l, batch, m, es, |es|);
    var m2, s := After(l, batch, m, es, |es|), StateOf(l, m.logits, m.cached);
    forall p | InLayout(l, p) ensures p in Call(s, l.vocab, batch) && Call(s, l.vocab, batch)[p] == RowOf(l, m2.logits, m2.cached, p) {
      CalledRow(l, batch, m, es, m2, p);
    }
    SameStates(l, m2, s, Call(s, l.vocab, batch));
  }

  lemma SameStates(l: Layout, m: Memory, s: State, t: State)
    requires (forall p :: p in s <==> InLayout(l, p)) && t.Keys == s.Keys
    requires forall p :: InLayout(l, p) ==> p in t && t[p] == RowOf(l, m.logits, m.cached, p)
    ensures StateOf(l, m.logits, m.cached) == t
  {
    var u := StateOf(l, m.logits, m.cached);
    forall p: Pair ensures p in u <==> p in t { assert p == (p.0, p.1); }
  }

  lemma CalledRow(l: Layout, batch: seq<Work>, m: Memory, es: seq<Event>, m2: Memory, p: Pair)
    requires Ready(l, batch, m) && Interleaves(l, batch, es) && RowsReady(l, m) && BatchOk(StateOf(l, m.logits, m.cached), l.vocab, batch)
    requires LaunchOk(l, batch, m, es, |es|, m2) && InLayout(l, p)
    ensures p in StateOf(l, m.logits, m.cached)
    ensures RowOf(l, m2.logits, m2.cached, p) == Call(StateOf(l, m.logits, m.cached), l.vocab, batch)[p]
  {
    var s := StateOf(l, m.logits, m.cached);
    assert (p.0, p.1) in s && p == (p.0, p.1);
    if i: nat :| i < |batch| && Active(batch[i]) && IsFor(batch[i], p) {
      assert PairOf(batch[i]) == p;
      assert InstanceOk(l, batch[i], m, i, es, |es|, m2);
      DoneRow(l, batch, m, es, m2, i);
      CallAt(s, l.vocab, batch, i, p);
    } else {
      IdleRow(l, batch, m, es, m2, p);
      CallElsewhere(s, l.vocab, batch, p);
    }
  }

  /** Main theorem: all interleavings leave the same flat buffers, padding included. */
  lemma InterleavingIrrelevant(l: Layout, batch: seq<Work>, m: Memory, a: seq<Event>, b: seq<Event>)
    requires Ready(l, batch, m) && Interleaves(l, batch, a) && Interleaves(l, batch, b)
    ensures After(l, batch, m, a, |a|).logits == After(l, batch, m, b, |b|).logits
    ensures After(l, batch, m, a, |a|).cached == After(l, batch, m, b, |b|).cached
  {
    ReadyRows(l, batch, m);
    LaunchKeeps(l, batch, m, a, |a|);
    LaunchKeeps(l, batch, m, b, |b|);
    var x, y := After(l, batch, m, a, |a|), After(l, batch, m, b, |b|);
    forall at: nat | at < |m.logits| ensures x.logits[at] == y.logits[at] { SameLogit(l, batch, m, a, b, x, y, at); }
    forall at: nat | at < |m.cached| ensures x.cached[at] == y.cached[at] { SameId(l, batch, m, a, b, x, y, at); }
  }

  lemma SameLogit(l: Layout, batch: seq<Work>, m: Memory, a: seq<Event>, b: seq<Event>, x: Memory, y: Memory, at: nat)
    requires RowsReady(l, m) && BatchFits(l, batch) && Interleaves(l, batch, a) && Interleaves(l, batch, b)
    requires LaunchOk(l, batch, m, a, |a|, x) && LaunchOk(l, batch, m, b, |b|, y) && at < |m.logits|
    ensures x.logits[at] == y.logits[at]
  {
    if !Outside(l, batch, at) {
      var i: nat :| i < |batch| && Active(batch[i]) && Base(l, PairOf(batch[i])) <= at < Base(l, PairOf(batch[i])) + l.vocab;
      SameRow(l, batch, m, a, b, x, y, i, at - Base(l, PairOf(batch[i])), 0);
    }
  }

  lemma SameId(l: Layout, batch: seq<Work>, m: Memory, a: seq<Event>, b: seq<Event>, x: Memory, y: Memory, at: nat)
    requires RowsReady(l, m) && BatchFits(l, batch) && Interleaves(l, batch, a) && Interleaves(l, batch, b)
    requires LaunchOk(l, batch, m, a, |a|, x) && LaunchOk(l, batch, m, b, |b|, y) && at < |m.cached|
    ensures x.cached[at] == y.cached[at]
  {
    if !OutsideCache(l, batch, at) {
      var i: nat :| i < |batch| && Active(batch[i]) && CacheBase(l, PairOf(batch[i])) <= at < CacheBase(l, PairOf(batch[i])) + l.topK;
      SameRow(l, batch, m, a, b, x, y, i, 0, at - CacheBase(l, PairOf(batch[i])));
    }
  }

  /** Both orders leave logit `t` and id `k` of an active row the same. */
  lemma SameRow(l: Layout, batch: seq<Work>, m: Memory, a: seq<Event>, b: seq<Event>, x: Memory, y: Memory, i: nat, t: nat, k: nat)
    requires RowsReady(l, m) && BatchFits(l, batch) && Interleaves(l, batch, a) && Interleaves(l, batch, b)
    requires LaunchOk(l, batch, m, a, |a|, x) && LaunchOk(l, batch, m, b, |b|, y) && i < |batch| && Active(batch[i])
    ensures var at := Base(l, PairOf(batch[i])) + t; t < l.vocab ==> at < |x.logits| == |y.logits| && x.logits[at] == y.logits[at]
    ensures var at := CacheBase(l, PairOf(batch[i])) + k; k < l.topK ==> at < |x.cached| == |y.cached| && x.cached[at] == y.cached[at]
  {
    var p := PairOf(batch[i]);
    assert InstanceOk(l, batch[i], m, i, a, |a|, x) && InstanceOk(l, batch[i], m, i, b, |b|, y);
    DoneRow(l, batch, m, a, x, i);
    DoneRow(l, batch, m, b, y, i);
    RowFits(l, p, x);
    RowFits(l, p, y);
    assert t < l.vocab ==> x.logits[Base(l, p) + t] == RowOf(l, x.logits, x.cached, p).logits[t];
    assert k < l.topK ==> x.cached[CacheBase(l, p) + k] == RowOf(l, x.logits, x.cached, p).ids[k];
  }
}
