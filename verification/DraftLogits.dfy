/** The sparse-to-dense draft-logit cache and the selector walk of
    overlay/dflash2_speculator.py. Dense rows keep minus infinity everywhere except at the
    candidates cached for them. */
module DraftLogits {
  import opened Common
  import Arith

  datatype Score = NegInf | Val(v: real)

  /** One (request, step) row: its dense logits and its cached candidate ids. */
  datatype Row = Row(logits: seq<Score>, ids: seq<nat>)

  predicate Distinct(ids: seq<nat>) { forall a, b :: 0 <= a < b < |ids| ==> ids[a] != ids[b] }

  predicate InVocab(ids: seq<nat>, vocab: nat) { forall k :: 0 <= k < |ids| ==> ids[k] < vocab }

  /** Every finite entry is a cached candidate. */
  predicate Clean(row: Row) {
    && InVocab(row.ids, |row.logits|)
    && forall t :: 0 <= t < |row.logits| && row.logits[t] != NegInf ==> t in row.ids
  }

  /** Store minus infinity at each listed token. */
  function Erase(logits: seq<Score>, ids: seq<nat>): (r: seq<Score>)
    requires InVocab(ids, |logits|)
    ensures |r| == |logits|
    decreases |ids|
  {
    if ids == [] then logits else Erase(logits[ids[0] := NegInf], ids[1..])
  }

  /** Store each score at its token. */
  function Write(logits: seq<Score>, ids: seq<nat>, scores: seq<real>): (r: seq<Score>)
    requires InVocab(ids, |logits|) && |scores| == |ids|
    ensures |r| == |logits|
    decreases |ids|
  {
    if ids == [] then logits else Write(logits[ids[0] := Val(scores[0])], ids[1..], scores[1..])
  }

  /** `_cache_draft_logits_kernel` on one active row. */
  function Update(row: Row, ids: seq<nat>, scores: seq<real>): Row
    requires InVocab(row.ids, |row.logits|) && InVocab(ids, |row.logits|) && |scores| == |ids|
  {
    Row(Write(Erase(row.logits, row.ids), ids, scores), ids)
  }

  lemma {:induction false} EraseAt(logits: seq<Score>, ids: seq<nat>, t: nat)
    requires InVocab(ids, |logits|) && t < |logits|
    ensures Erase(logits, ids)[t] == if t in ids then NegInf else logits[t]
    decreases |ids|
  {
    if ids != [] {
      EraseAt(logits[ids[0] := NegInf], ids[1..], t);
      assert ids == [ids[0]] + ids[1..];
    }
  }

  lemma {:induction false} WriteElsewhere(logits: seq<Score>, ids: seq<nat>, scores: seq<real>, t: nat)
    requires InVocab(ids, |logits|) && |scores| == |ids| && t < |logits| && t !in ids
    ensures Write(logits, ids, scores)[t] == logits[t]
    decreases |ids|
  {
    if ids != [] {
      WriteElsewhere(logits[ids[0] := Val(scores[0])], ids[1..], scores[1..], t);
    }
  }

  lemma {:induction false} WriteAt(logits: seq<Score>, ids: seq<nat>, scores: seq<real>, k: nat)
    requires InVocab(ids, |logits|) && |scores| == |ids| && Distinct(ids) && k < |ids|
    ensures Write(logits, ids, scores)[ids[k]] == Val(scores[k])
    decreases |ids|
  {
    var next := logits[ids[0] := Val(scores[0])];
    forall a, b | 0 <= a < b < |ids[1..]| ensures ids[1..][a] != ids[1..][b] { assert ids[1..][a] == ids[a + 1] && ids[1..][b] == ids[b + 1]; }
    if k == 0 {
      assert ids[0] !in ids[1..];
      WriteElsewhere(next, ids[1..], scores[1..], ids[0]);
    } else {
      WriteAt(next, ids[1..], scores[1..], k - 1);
    }
  }

  /** A row that shows exactly these scores at these candidates. */
  ghost predicate Shows(row: Row, ids: seq<nat>, scores: seq<real>) {
    && row.ids == ids && |scores| == |ids| && InVocab(ids, |row.logits|)
    && (forall k :: 0 <= k < |ids| ==> row.logits[ids[k]] == Val(scores[k]))
    && (forall t :: 0 <= t < |row.logits| && t !in ids ==> row.logits[t] == NegInf)
  }

  /** One update of a clean row leaves minus infinity everywhere but at the new
      candidates, which hold the new scores. */
  lemma UpdateShows(row: Row, ids: seq<nat>, scores: seq<real>)
    requires Clean(row) && InVocab(ids, |row.logits|) && |scores| == |ids| && Distinct(ids)
    ensures Shows(Update(row, ids, scores), ids, scores) && Clean(Update(row, ids, scores))
  {
    var erased := Erase(row.logits, row.ids);
    var next := Update(row, ids, scores);
    forall k | 0 <= k < |ids| ensures next.logits[ids[k]] == Val(scores[k]) { WriteAt(erased, ids, scores, k); }
    forall t | 0 <= t < |next.logits| && t !in ids ensures next.logits[t] == NegInf {
      WriteElsewhere(erased, ids, scores, t);
      EraseAt(row.logits, row.ids, t);
    }
  }

  // ----- calls over all rows -----

  /** One kernel instance: a request's slot (negative if inactive), its step, and the
      candidates and scores of that step. */
  datatype Work = Work(req: int, step: nat, ids: seq<nat>, scores: seq<real>)

  type Pair = (nat, nat)

  predicate Active(w: Work) { w.req >= 0 }

  predicate IsFor(w: Work, p: Pair) { w.req == p.0 && w.step == p.1 }

  /** All rows, by (request, step). */
  type State = map<Pair, Row>

  ghost predicate StateOk(s: State, vocab: nat) { forall p :: p in s ==> |s[p].logits| == vocab && Clean(s[p]) }

  predicate WorkOk(s: State, vocab: nat, w: Work) {
    Active(w) ==> (w.req as nat, w.step) in s && InVocab(w.ids, vocab) && |w.scores| == |w.ids| && Distinct(w.ids)
  }

  ghost predicate BatchOk(s: State, vocab: nat, batch: seq<Work>) { forall k :: 0 <= k < |batch| ==> WorkOk(s, vocab, batch[k]) }

  /** No two active instances share a row. */
  predicate DistinctPairs(batch: seq<Work>) {
    forall a, b :: 0 <= a < b < |batch| && Active(batch[a]) && Active(batch[b]) ==> !(batch[a].req == batch[b].req && batch[a].step == batch[b].step)
  }

  ghost function Apply(s: State, vocab: nat, w: Work): (r: State)
    requires StateOk(s, vocab) && WorkOk(s, vocab, w)
    ensures StateOk(r, vocab) && r.Keys == s.Keys
  {
    if Active(w) then
      var p := (w.req as nat, w.step);
      UpdateShows(s[p], w.ids, w.scores);
      s[p := Update(s[p], w.ids, w.scores)]
    else s
  }

  /** The instances of one call, in some order. */
  ghost function Call(s: State, vocab: nat, batch: seq<Work>): (r: State)
    requires StateOk(s, vocab) && BatchOk(s, vocab, batch)
    ensures StateOk(r, vocab) && r.Keys == s.Keys
    decreases |batch|
  {
    if batch == [] then s else Call(Apply(s, vocab, batch[0]), vocab, batch[1..])
  }

  lemma {:induction false} CallElsewhere(s: State, vocab: nat, batch: seq<Work>, p: Pair)
    requires StateOk(s, vocab) && BatchOk(s, vocab, batch) && p in s
    requires forall k :: 0 <= k < |batch| ==> !(Active(batch[k]) && IsFor(batch[k], p))
    ensures Call(s, vocab, batch)[p] == s[p]
    decreases |batch|
  {
    if batch != [] {
      CallElsewhere(Apply(s, vocab, batch[0]), vocab, batch[1..], p);
    }
  }

  /** A call updates each active row once, from its value before the call. */
  lemma {:induction false} CallAt(s: State, vocab: nat, batch: seq<Work>, k: nat, p: Pair)
    requires StateOk(s, vocab) && BatchOk(s, vocab, batch) && DistinctPairs(batch) && k < |batch|
    requires Active(batch[k]) && IsFor(batch[k], p)
    ensures p in s && Call(s, vocab, batch)[p] == Update(s[p], batch[k].ids, batch[k].scores)
    decreases |batch|
  {
    assert WorkOk(s, vocab, batch[k]) && WorkOk(s, vocab, batch[0]);
    var next, rest := Apply(s, vocab, batch[0]), batch[1..];
    forall a, b | 0 <= a < b < |rest| && Active(rest[a]) && Active(rest[b]) ensures !(rest[a].req == rest[b].req && rest[a].step == rest[b].step) {
      assert rest[a] == batch[a + 1] && rest[b] == batch[b + 1];
    }
    if k == 0 {
      forall j | 0 <= j < |rest| ensures !(Active(rest[j]) && IsFor(rest[j], p)) { assert rest[j] == batch[j + 1]; }
      CallElsewhere(next, vocab, rest, p);
    } else {
      CallAt(next, vocab, rest, k - 1, p);
    }
  }

  /** Main theorem: parallel instances commute; any two orders of one call's instances
      give the same rows. */
  lemma OrderIrrelevant(s: State, vocab: nat, a: seq<Work>, b: seq<Work>)
    requires StateOk(s, vocab) && BatchOk(s, vocab, a) && BatchOk(s, vocab, b) && DistinctPairs(a) && DistinctPairs(b)
    requires forall w :: w in a <==> w in b
    ensures Call(s, vocab, a) == Call(s, vocab, b)
  {
    forall p | p in s ensures Call(s, vocab, a)[p] == Call(s, vocab, b)[p] {
      if k :| 0 <= k < |a| && Active(a[k]) && IsFor(a[k], p) {
        assert a[k] in b;
        var j :| 0 <= j < |b| && b[j] == a[k];
        CallAt(s, vocab, a, k, p);
        CallAt(s, vocab, b, j, p);
      } else {
        forall j | 0 <= j < |b| ensures !(Active(b[j]) && IsFor(b[j], p)) { assert b[j] in a; }
        CallElsewhere(s, vocab, a, p);
        CallElsewhere(s, vocab, b, p);
      }
    }
  }

  // ----- any sequence of calls -----

  ghost predicate Runs(s: State, vocab: nat, calls: seq<seq<Work>>, t: State)
    requires StateOk(s, vocab)
    decreases |calls|
  {
    if calls == [] then s == t
    else BatchOk(s, vocab, calls[0]) && DistinctPairs(calls[0]) && Runs(Call(s, vocab, calls[0]), vocab, calls[1..], t)
  }

  /** The work of one call for a row, if any. */
  predicate Touches(batch: seq<Work>, p: Pair) { exists k :: 0 <= k < |batch| && Active(batch[k]) && IsFor(batch[k], p) }

  /** `w` was the last work for row `p`. */
  ghost predicate LastFor(calls: seq<seq<Work>>, p: Pair, w: Work) {
    exists c, k :: 0 <= c < |calls| && 0 <= k < |calls[c]| && calls[c][k] == w && Active(w) && IsFor(w, p)
      && forall d :: c < d < |calls| ==> !Touches(calls[d], p)
  }

  lemma {:induction false} Untouched(s: State, vocab: nat, calls: seq<seq<Work>>, t: State, p: Pair)
    requires StateOk(s, vocab) && Runs(s, vocab, calls, t) && p in s && forall c :: 0 <= c < |calls| ==> !Touches(calls[c], p)
    ensures p in t && t[p] == s[p]
    decreases |calls|
  {
    if calls != [] {
      assert !Touches(calls[0], p);
      CallElsewhere(s, vocab, calls[0], p);
      Untouched(Call(s, vocab, calls[0]), vocab, calls[1..], t, p);
    }
  }

  lemma {:induction false} LastShows(s: State, vocab: nat, calls: seq<seq<Work>>, t: State, p: Pair, c: nat, k: nat)
    requires StateOk(s, vocab) && Runs(s, vocab, calls, t) && c < |calls| && k < |calls[c]| && Active(calls[c][k]) && IsFor(calls[c][k], p)
    requires forall d :: c < d < |calls| ==> !Touches(calls[d], p)
    ensures p in t && Shows(t[p], calls[c][k].ids, calls[c][k].scores)
    decreases |calls|
  {
    var next := Call(s, vocab, calls[0]);
    if c == 0 {
      CallAt(s, vocab, calls[0], k, p);
      assert WorkOk(s, vocab, calls[0][k]);
      UpdateShows(s[p], calls[0][k].ids, calls[0][k].scores);
      forall d | 0 <= d < |calls[1..]| ensures !Touches(calls[1..][d], p) { assert calls[1..][d] == calls[d + 1]; }
      Untouched(next, vocab, calls[1..], t, p);
    } else {
      forall d | c - 1 < d < |calls[1..]| ensures !Touches(calls[1..][d], p) { assert calls[1..][d] == calls[d + 1]; }
      LastShows(next, vocab, calls[1..], t, p, c - 1, k);
    }
  }

  /** Main theorem: after any sequence of calls, a row that was ever updated is minus
      infinity everywhere except at the candidates last cached for it, where it holds the
      last scores. */
  lemma RowShowsLastWrite(s: State, vocab: nat, calls: seq<seq<Work>>, t: State, p: Pair, w: Work)
    requires StateOk(s, vocab) && Runs(s, vocab, calls, t) && LastFor(calls, p, w)
    ensures p in t && Shows(t[p], w.ids, w.scores)
  {
    var c, k :| 0 <= c < |calls| && 0 <= k < |calls[c]| && calls[c][k] == w && Active(w) && IsFor(w, p)
      && forall d :: c < d < |calls| ==> !Touches(calls[d], p);
    LastShows(s, vocab, calls, t, p, c, k);
  }

  /** Freshly initialised rows: all minus infinity, cached ids all zero. */
  lemma InitialIsOk(s: State, vocab: nat, topK: nat)
    requires vocab > 0 && forall p :: p in s ==> s[p] == Row(seq(vocab, _ => NegInf), seq(topK, _ => 0))
    ensures StateOk(s, vocab)
  {
  }

  // ----- the buffers -----

  datatype Layout = Layout(reqs: nat, steps: nat, topK: nat, vocab: nat, stride0: nat, stride1: nat)

  predicate ValidLayout(l: Layout) { l.steps > 0 && l.stride1 >= l.vocab > 0 && l.stride0 >= l.steps * l.stride1 }

  function Base(l: Layout, p: Pair): nat {
    Arith.MulMono(l.stride0, 0, p.0);
    Arith.MulMono(l.stride1, 0, p.1);
    p.0 * l.stride0 + p.1 * l.stride1
  }

  function CacheBase(l: Layout, p: Pair): nat {
    Arith.MulMono(l.steps, 0, p.0);
    Arith.MulMono(l.topK, 0, p.0 * l.steps + p.1);
    (p.0 * l.steps + p.1) * l.topK
  }

  predicate InLayout(l: Layout, p: Pair) { p.0 < l.reqs && p.1 < l.steps }

  lemma InnerOffset(l: Layout, step: nat, t: nat)
    requires ValidLayout(l) && step < l.steps && t < l.vocab
    ensures 0 <= step * l.stride1 + t < l.stride0
  {
    Arith.MulMono(l.stride1, step + 1, l.steps);
    Arith.OneMore(step, l.stride1);
    Arith.MulMono(l.stride1, 0, step);
  }

  /** Rows of different pairs share no element. */
  lemma RowsDisjoint(l: Layout, p: Pair, q: Pair, t: nat, u: nat)
    requires ValidLayout(l) && InLayout(l, p) && InLayout(l, q) && t < l.vocab && u < l.vocab && Base(l, p) + t == Base(l, q) + u
    ensures p == q
  {
    InnerOffset(l, p.1, t);
    InnerOffset(l, q.1, u);
    Arith.DivUnique(Base(l, p) + t, l.stride0, p.0, p.1 * l.stride1 + t);
    Arith.DivUnique(Base(l, p) + t, l.stride0, q.0, q.1 * l.stride1 + u);
    Arith.DivUnique(p.1 * l.stride1 + t, l.stride1, p.1, t);
    Arith.DivUnique(p.1 * l.stride1 + t, l.stride1, q.1, u);
  }

  lemma CachesDisjoint(l: Layout, p: Pair, q: Pair, k: nat, j: nat)
    requires InLayout(l, p) && InLayout(l, q) && k < l.topK && j < l.topK && CacheBase(l, p) + k == CacheBase(l, q) + j
    ensures p == q
  {
    var x := CacheBase(l, p) + k;
    Arith.DivUnique(x, l.topK, p.0 * l.steps + p.1, k);
    Arith.DivUnique(x, l.topK, q.0 * l.steps + q.1, j);
    Arith.DivUnique(p.0 * l.steps + p.1, l.steps, p.0, p.1);
    Arith.DivUnique(p.0 * l.steps + p.1, l.steps, q.0, q.1);
  }

  lemma BaseFits(l: Layout, p: Pair)
    requires ValidLayout(l) && InLayout(l, p)
    ensures Base(l, p) + l.vocab <= l.reqs * l.stride0
  {
    InnerOffset(l, p.1, l.vocab - 1);
    Arith.MulMono(l.stride0, p.0 + 1, l.reqs);
    Arith.OneMore(p.0, l.stride0);
  }

  lemma CacheFits(l: Layout, p: Pair)
    requires InLayout(l, p)
    ensures l.reqs * l.steps >= 0 && CacheBase(l, p) + l.topK <= l.reqs * l.steps * l.topK
  {
    Arith.MulMono(l.steps, p.0 + 1, l.reqs);
    Arith.OneMore(p.0, l.steps);
    Arith.MulMono(l.topK, p.0 * l.steps + p.1 + 1, l.reqs * l.steps);
    Arith.OneMore(p.0 * l.steps + p.1, l.topK);
  }

  method EraseRow(logits: array<Score>, base: nat, vocab: nat, ids: seq<nat>)
    requires base + vocab <= logits.Length && InVocab(ids, vocab)
    modifies logits
    ensures logits[base..base + vocab] == Erase(old(logits[base..base + vocab]), ids)
    ensures forall x :: 0 <= x < logits.Length && !(base <= x < base + vocab) ==> logits[x] == old(logits[x])
  {
    assert ids[0..] == ids;
    var k := 0;
    while k < |ids|
      invariant 0 <= k <= |ids|
      invariant Erase(logits[base..base + vocab], ids[k..]) == Erase(old(logits[base..base + vocab]), ids)
      invariant forall x :: 0 <= x < logits.Length && !(base <= x < base + vocab) ==> logits[x] == old(logits[x])
    {
      ghost var row := logits[base..base + vocab];
      assert ids[k..][0] == ids[k] && ids[k..][1..] == ids[k + 1..];
      logits[base + ids[k]] := NegInf;
      assert logits[base..base + vocab] == row[ids[k] := NegInf];
      k := k + 1;
    }
  }

  method WriteRow(logits: array<Score>, base: nat, vocab: nat, ids: seq<nat>, scores: seq<real>)
    requires base + vocab <= logits.Length && InVocab(ids, vocab) && |scores| == |ids|
    modifies logits
    ensures logits[base..base + vocab] == Write(old(logits[base..base + vocab]), ids, scores)
    ensures forall x :: 0 <= x < logits.Length && !(base <= x < base + vocab) ==> logits[x] == old(logits[x])
  {
    assert ids[0..] == ids && scores[0..] == scores;
    var k := 0;
    while k < |ids|
      invariant 0 <= k <= |ids|
      invariant Write(logits[base..base + vocab], ids[k..], scores[k..]) == Write(old(logits[base..base + vocab]), ids, scores)
      invariant forall x :: 0 <= x < logits.Length && !(base <= x < base + vocab) ==> logits[x] == old(logits[x])
    {
      ghost var row := logits[base..base + vocab];
      assert ids[k..][0] == ids[k] && ids[k..][1..] == ids[k + 1..] && scores[k..][0] == scores[k] && scores[k..][1..] == scores[k + 1..];
      logits[base + ids[k]] := Val(scores[k]);
      assert logits[base..base + vocab] == row[ids[k] := Val(scores[k])];
      k := k + 1;
    }
  }

  method StoreIds(cached: array<nat>, base: nat, ids: seq<nat>)
    requires base + |ids| <= cached.Length
    modifies cached
    ensures cached[base..base + |ids|] == ids
    ensures forall x :: 0 <= x < cached.Length && !(base <= x < base + |ids|) ==> cached[x] == old(cached[x])
  {
    var k := 0;
    while k < |ids|
      invariant 0 <= k <= |ids|
      invariant forall j :: 0 <= j < k ==> cached[base + j] == ids[j]
      invariant forall x :: 0 <= x < cached.Length && !(base <= x < base + k) ==> cached[x] == old(cached[x])
    {
      cached[base + k] := ids[k];
      k := k + 1;
    }
  }

  function Window<T>(s: seq<T>, from: nat, len: nat): seq<T> { if from + len <= |s| then s[from..from + len] else [] }

  /** The row of a pair, as the two buffers hold it. */
  function RowOf(l: Layout, logits: seq<Score>, cached: seq<nat>, p: Pair): Row {
    Row(Window(logits, Base(l, p), l.vocab), Window(cached, CacheBase(l, p), l.topK))
  }

  lemma OtherLogit(l: Layout, p: Pair, q: Pair, t: nat)
    requires ValidLayout(l) && InLayout(l, p) && InLayout(l, q) && p != q && t < l.vocab
    ensures !(Base(l, p) <= Base(l, q) + t < Base(l, p) + l.vocab)
  {
    var u := Base(l, q) + t - Base(l, p);
    if 0 <= u < l.vocab {
      RowsDisjoint(l, q, p, t, u);
      assert false;
    }
  }

  lemma OtherId(l: Layout, p: Pair, q: Pair, k: nat)
    requires InLayout(l, p) && InLayout(l, q) && p != q && k < l.topK
    ensures !(CacheBase(l, p) <= CacheBase(l, q) + k < CacheBase(l, p) + l.topK)
  {
    var j := CacheBase(l, q) + k - CacheBase(l, p);
    if 0 <= j < l.topK {
      CachesDisjoint(l, q, p, k, j);
      assert false;
    }
  }

  /** Changes inside one pair's spans leave every other row as it was. */
  lemma OtherRowKept(l: Layout, p: Pair, q: Pair, a: seq<Score>, b: seq<Score>, ca: seq<nat>, cb: seq<nat>)
    requires ValidLayout(l) && InLayout(l, p) && InLayout(l, q) && q != p && |a| == |b| && |ca| == |cb|
    requires forall x :: 0 <= x < |a| && !(Base(l, p) <= x < Base(l, p) + l.vocab) ==> a[x] == b[x]
    requires forall x :: 0 <= x < |ca| && !(CacheBase(l, p) <= x < CacheBase(l, p) + l.topK) ==> ca[x] == cb[x]
    ensures RowOf(l, a, ca, q) == RowOf(l, b, cb, q)
  {
    var f, cf := Base(l, q), CacheBase(l, q);
    if f + l.vocab <= |a| {
      forall x | f <= x < f + l.vocab ensures a[x] == b[x] { OtherLogit(l, p, q, x - f); }
    }
    if cf + l.topK <= |ca| {
      forall x | cf <= x < cf + l.topK ensures ca[x] == cb[x] { OtherId(l, p, q, x - cf); }
    }
    assert Window(a, f, l.vocab) == Window(b, f, l.vocab) && Window(ca, cf, l.topK) == Window(cb, cf, l.topK);
  }

  /** All rows of the buffers. */
  function StateOf(l: Layout, logits: seq<Score>, cached: seq<nat>): (s: State)
    ensures forall r: nat, t: nat :: (r, t) in s <==> InLayout(l, (r, t))
    ensures forall p :: p in s ==> s[p] == RowOf(l, logits, cached, p)
  {
    map r: nat, t: nat | r < l.reqs && t < l.steps :: (r, t) := RowOf(l, logits, cached, (r, t))
  }

  lemma StateUpdated(l: Layout, a: seq<Score>, ca: seq<nat>, b: seq<Score>, cb: seq<nat>, p: Pair, row: Row)
    requires InLayout(l, p) && RowOf(l, b, cb, p) == row
    requires forall q :: InLayout(l, q) && q != p ==> RowOf(l, b, cb, q) == RowOf(l, a, ca, q)
    ensures StateOf(l, b, cb) == StateOf(l, a, ca)[p := row]
  {
    var s, t := StateOf(l, b, cb), StateOf(l, a, ca)[p := row];
    forall q: Pair ensures q in s <==> q in t {
      assert q == (q.0, q.1);
      assert (p.0, p.1) in StateOf(l, a, ca);
    }
    forall q | q in s ensures s[q] == t[q] { assert (q.0, q.1) in s; }
  }

  class DraftCache {
    const l: Layout
    const logits: array<Score>
    const cached: array<nat>

    ghost predicate Fits() {
      ValidLayout(l) && logits.Length == l.reqs * l.stride0 && l.reqs * l.steps >= 0 && cached.Length == l.reqs * l.steps * l.topK
    }

    /** The row of a pair, as the buffers hold it. */
    ghost function RowAt(p: Pair): Row
      reads logits, cached
    {
      RowOf(l, logits[..], cached[..], p)
    }

    /** Minus infinity everywhere, cached ids all zero. */
    constructor (l: Layout)
      requires ValidLayout(l)
      ensures Fits() && this.l == l && fresh(logits) && fresh(cached)
      ensures forall p :: InLayout(l, p) ==> Clean(RowAt(p)) && RowAt(p).logits == seq(l.vocab, _ => NegInf)
    {
      Arith.MulMono(l.stride0, 0, l.reqs);
      Arith.MulMono(l.steps, 0, l.reqs);
      Arith.MulMono(l.topK, 0, l.reqs * l.steps);
      this.l := l;
      logits := new Score[l.reqs * l.stride0](_ => NegInf);
      cached := new nat[l.reqs * l.steps * l.topK](_ => 0);
      new;
      forall p | InLayout(l, p) ensures Clean(RowAt(p)) && RowAt(p).logits == seq(l.vocab, _ => NegInf) {
        BaseFits(l, p);
        CacheFits(l, p);
      }
    }

    /** One active kernel instance: its own row is updated, every other row is as before. */
    method Instance(p: Pair, ids: seq<nat>, scores: seq<real>)
      requires Fits() && InLayout(l, p) && InVocab(RowAt(p).ids, l.vocab)
      requires InVocab(ids, l.vocab) && |ids| == |scores| == l.topK
      modifies logits, cached
      ensures |old(RowAt(p)).logits| == l.vocab && RowAt(p) == Update(old(RowAt(p)), ids, scores)
      ensures forall q :: InLayout(l, q) && q != p ==> RowAt(q) == old(RowAt(q))
    {
      BaseFits(l, p);
      CacheFits(l, p);
      var base, cbase := Base(l, p), CacheBase(l, p);
      ghost var before, had := logits[..], cached[..];
      var stale := cached[cbase..cbase + l.topK];
      EraseRow(logits, base, l.vocab, stale);
      WriteRow(logits, base, l.vocab, ids, scores);
      StoreIds(cached, cbase, ids);
      forall q | InLayout(l, q) && q != p ensures RowOf(l, logits[..], cached[..], q) == RowOf(l, before, had, q) {
        OtherRowKept(l, p, q, logits[..], before, cached[..], had);
      }
    }

    ghost function Abs(): State
      reads logits, cached
    {
      StateOf(l, logits[..], cached[..])
    }

    /** `_cache_draft_logits`: one instance per (request, step), inactive ones do nothing. */
    method CacheDraftLogits(batch: seq<Work>)
      requires Fits() && StateOk(Abs(), l.vocab) && BatchOk(Abs(), l.vocab, batch)
      requires forall k :: 0 <= k < |batch| ==> batch[k].step == k % l.steps && (Active(batch[k]) ==> |batch[k].ids| == l.topK)
      modifies logits, cached
      ensures StateOk(Abs(), l.vocab) && Abs() == Call(old(Abs()), l.vocab, batch)
    {
      assert batch[0..] == batch;
      var flat := 0;
      while flat < |batch|
        invariant 0 <= flat <= |batch| && StateOk(Abs(), l.vocab) && Abs().Keys == old(Abs()).Keys
        invariant BatchOk(Abs(), l.vocab, batch[flat..])
        invariant Call(Abs(), l.vocab, batch[flat..]) == Call(old(Abs()), l.vocab, batch)
      {
        var w := batch[flat];
        assert batch[flat..][0] == w && batch[flat..][1..] == batch[flat + 1..];
        assert WorkOk(Abs(), l.vocab, w);
        RunInstance(flat % l.steps, w);
        flat := flat + 1;
      }
    }

    /** The instance of one flat index. */
    method RunInstance(step: nat, w: Work)
      requires Fits() && StateOk(Abs(), l.vocab) && WorkOk(Abs(), l.vocab, w) && w.step == step && (Active(w) ==> |w.ids| == l.topK)
      modifies logits, cached
      ensures StateOk(Abs(), l.vocab) && Abs() == Apply(old(Abs()), l.vocab, w)
    {
      if w.req >= 0 {
        var p := (w.req as nat, step);
        ghost var a, ca := logits[..], cached[..];
        ghost var row := Abs()[p];
        assert (p.0, p.1) in Abs() && InLayout(l, p) && Clean(row);
        Instance(p, w.ids, w.scores);
        StateUpdated(l, a, ca, logits[..], cached[..], p, Update(row, w.ids, w.scores));
        UpdateShows(row, w.ids, w.scores);
      }
    }
  }

  // ----- the selector walk -----

  /** Picks a candidate position from a score row; Gumbel noise and temperature are part
      of the pick, and the position seeds them. */
  type Picker = (seq<real>, seq<nat>, int) -> nat

  /** What the walk is given per step: candidates, a score row per previous position, and
      the sampling position. */
  datatype Step = Step(candidates: seq<nat>, scores: seq<seq<real>>, pos: int)

  ghost predicate ValidWalk(steps: seq<Step>, topK: nat, pick: Picker) {
    && topK > 0
    && (forall i :: 0 <= i < |steps| ==> |steps[i].candidates| == |steps[i].scores| == topK)
    && (forall row: seq<real>, ids: seq<nat>, pos: int :: pick(row, ids, pos) < topK)
  }

  /** The position chosen at step `i - 1`; the walk starts from position 0. */
  ghost function Chosen(steps: seq<Step>, topK: nat, pick: Picker, i: nat): (c: nat)
    requires ValidWalk(steps, topK, pick) && i <= |steps|
    ensures c < topK
  {
    if i == 0 then 0
    else
      var s := steps[i - 1];
      pick(s.scores[Chosen(steps, topK, pick, i - 1)], s.candidates, s.pos - 1)
  }

  /** Step `i` recorded the row its predecessor selected and the candidate chosen from it. */
  ghost predicate Walked(steps: seq<Step>, topK: nat, pick: Picker, tokens: seq<nat>, realized: seq<seq<real>>, i: nat)
    requires ValidWalk(steps, topK, pick)
  {
    && i < |steps| && i < |tokens| && i < |realized|
    && tokens[i] == steps[i].candidates[Chosen(steps, topK, pick, i + 1)]
    && realized[i] == steps[i].scores[Chosen(steps, topK, pick, i)]
  }

  /** `_selector_walk_kernel` on one active row: every token is the candidate chosen from
      the score row that its predecessor selected, and that row is what gets recorded. */
  method SelectorWalk(steps: seq<Step>, topK: nat, pick: Picker) returns (tokens: seq<nat>, realized: seq<seq<real>>)
    requires ValidWalk(steps, topK, pick)
    ensures |tokens| == |realized| == |steps|
    ensures forall i: nat :: i < |steps| ==> Walked(steps, topK, pick, tokens, realized, i)
  {
    tokens, realized := [], [];
    var previous, step := 0, 0;
    while step < |steps|
      invariant 0 <= step <= |steps| && |tokens| == |realized| == step && previous == Chosen(steps, topK, pick, step)
      invariant forall i: nat :: i < step ==> Walked(steps, topK, pick, tokens, realized, i)
    {
      ghost var was, had := tokens, realized;
      var s := steps[step];
      var index := pick(s.scores[previous], s.candidates, s.pos - 1);
      realized := realized + [s.scores[previous]];
      tokens := tokens + [s.candidates[index]];
      forall i: nat | i < step ensures Walked(steps, topK, pick, tokens, realized, i) { assert Walked(steps, topK, pick, was, had, i); }
      previous := index;
      step := step + 1;
    }
  }
}
