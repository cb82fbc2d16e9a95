/** Align-mode Mamba state blocks of overlay/patch_mamba_align_state_free.py: which of a
    request's blocks are held while several steps are in flight. A block is kept as the
    fact whether the request holds it or has a null block in its place. */
module MambaState {
  import opened Common
  import Arith

  /** `spec` is the number of speculative blocks. */
  datatype Shape = Shape(block: nat, spec: nat)

  /** One request's block list and its superseded state blocks awaiting release. */
  datatype Blocks = Blocks(held: seq<bool>, stale: seq<nat>, started: bool)

  function Cdiv(c: Shape, n: nat): nat
    requires c.block > 0
  {
    CeilDiv(n, c.block)
  }

  predicate Releasable(c: Shape, m: Blocks, processed: nat)
    requires c.block > 0
  {
    m.stale != [] && m.stale[0] + 1 < Cdiv(c, processed)
  }

  function Null(held: seq<bool>, i: nat): (r: seq<bool>)
    ensures |r| == |held| && forall k :: 0 <= k < |r| ==> r[k] == (held[k] && k != i)
  {
    if i < |held| then held[i := false] else held
  }

  /** `remove_skipped_blocks`: superseded blocks behind the processed prefix go. */
  function Remove(c: Shape, m: Blocks, processed: nat): Blocks
    requires c.block > 0
    decreases |m.stale|
  {
    if Releasable(c, m, processed) then Remove(c, Blocks(Null(m.held, m.stale[0]), m.stale[1..], m.started), processed) else m
  }

  lemma PopFront(a: seq<nat>, b: seq<nat>)
    requires b != []
    ensures (a + [b[0]]) + b[1..] == a + b
  {
  }

  /** The list after an allocation for `n` tokens: the running state and the speculative
      blocks at the end, the old ones moved there, skipped positions null. This part of
      the manager is taken by its contract. */
  function Extend(c: Shape, m: Blocks, required: nat): (r: seq<bool>)
    requires required > |m.held|
    ensures |r| == required
  {
    var keep := if m.started then |m.held| - c.spec else |m.held|;
    seq(required, i requires 0 <= i < required => i + 1 + c.spec >= required || (i < keep && i < |m.held| && m.held[i]))
  }

  /** The state block the allocation supersedes. */
  function Superseded(c: Shape, m: Blocks): seq<nat> {
    if m.started then (if |m.held| >= 1 + c.spec then [|m.held| - 1 - c.spec] else [])
    else if |m.held| > 0 then [|m.held| - 1] else []
  }

  /** `allocate_new_blocks`. */
  function Allocate(c: Shape, m: Blocks, n: nat): Blocks
    requires c.block > 0
  {
    var required := Cdiv(c, n) + c.spec;
    if required <= |m.held| then m else Blocks(Extend(c, m, required), m.stale + Superseded(c, m), true)
  }

  // ----- steps in flight -----

  /** `processed` tokens are settled; `flights` are the sizes of the unsettled steps. */
  datatype Run = Run(m: Blocks, processed: nat, flights: seq<nat>)

  function Sum(s: seq<nat>): nat { if s == [] then 0 else s[0] + Sum(s[1..]) }

  /** First token of the `k`-th unsettled step. */
  function Start(r: Run, k: nat): nat
    requires k <= |r.flights|
  {
    r.processed + Sum(r.flights[..k])
  }

  function Computed(r: Run): nat { r.processed + Sum(r.flights) }

  /** Schedule `n` more tokens: release, then allocate. */
  function Schedule(c: Shape, r: Run, n: nat): Run
    requires c.block > 0
  {
    Run(Allocate(c, Remove(c, r.m, r.processed), Computed(r) + n), r.processed, r.flights + [n])
  }

  /** The oldest step settles with `accepted` of its tokens; rejected ones shift the
      later steps back. */
  function Settle(r: Run, accepted: nat): Run
    requires r.flights != [] && accepted <= r.flights[0]
  {
    Run(r.m, r.processed + accepted, r.flights[1..])
  }

  datatype Event = ScheduleStep(n: nat) | SettleStep(accepted: nat)

  /** At most `batches` concurrent steps, settled in order. */
  predicate Legal(r: Run, batches: nat, e: Event) {
    match e
    case ScheduleStep(n) => n > 0 && |r.flights| < batches
    case SettleStep(a) => r.flights != [] && a <= r.flights[0]
  }

  function Step(c: Shape, r: Run, e: Event): Run
    requires c.block > 0 && (e.SettleStep? ==> r.flights != [] && e.accepted <= r.flights[0])
  {
    match e
    case ScheduleStep(n) => Schedule(c, r, n)
    case SettleStep(a) => Settle(r, a)
  }

  // ----- the invariant -----

  predicate Ascending(s: seq<nat>) { forall i, j :: 0 <= i < j < |s| ==> s[i] < s[j] }

  /** Position `i` is held exactly if it is recorded or among the last 1 + spec. */
  predicate HeldAt(c: Shape, m: Blocks, i: nat) {
    i < |m.held| && (m.held[i] <==> i in m.stale || i + 1 + Spare(c, m) >= |m.held|)
  }

  function Spare(c: Shape, m: Blocks): nat { if m.started then c.spec else 0 }

  /** Everything held is either superseded and recorded, or among the last 1 + spec. */
  ghost predicate BlocksOk(c: Shape, m: Blocks) {
    && Ascending(m.stale)
    && (m.started ==> |m.held| >= 1 + c.spec)
    && (m.stale != [] ==> m.stale[|m.stale| - 1] + 1 + Spare(c, m) < |m.held|)
    && (forall i: nat :: i < |m.held| ==> HeldAt(c, m, i))
  }

  lemma StaleBefore(c: Shape, m: Blocks, i: nat)
    requires BlocksOk(c, m) && i < |m.stale|
    ensures m.stale[i] + 1 + Spare(c, m) < |m.held|
  {
    assert i < |m.stale| - 1 ==> m.stale[i] < m.stale[|m.stale| - 1];
  }

  /** A new request: nothing, or a block-aligned prefix hit whose last block is held. */
  ghost predicate Initial(c: Shape, r: Run) {
    && c.block > 0 && !r.m.started && r.m.stale == [] && r.flights == []
    && r.processed == |r.m.held| * c.block
    && forall i :: 0 <= i < |r.m.held| ==> (r.m.held[i] <==> i + 1 == |r.m.held|)
  }

  lemma PopKeeps(c: Shape, m: Blocks)
    requires BlocksOk(c, m) && m.stale != []
    ensures BlocksOk(c, Blocks(Null(m.held, m.stale[0]), m.stale[1..], m.started))
  {
    var m2 := Blocks(Null(m.held, m.stale[0]), m.stale[1..], m.started);
    assert m.stale == [m.stale[0]] + m2.stale;
    forall k | 0 <= k < |m2.stale| ensures m2.stale[k] > m.stale[0] { assert m2.stale[k] == m.stale[k + 1]; }
    forall i: nat | i < |m2.held| ensures HeldAt(c, m2, i) { assert HeldAt(c, m, i); }
  }

  lemma {:induction false} RemoveKeeps(c: Shape, m: Blocks, processed: nat)
    requires c.block > 0 && BlocksOk(c, m)
    ensures BlocksOk(c, Remove(c, m, processed)) && Remove(c, m, processed).started == m.started
    ensures |Remove(c, m, processed).held| == |m.held|
    ensures forall i :: 0 <= i < |Remove(c, m, processed).stale| ==> Remove(c, m, processed).stale[i] + 1 >= Cdiv(c, processed)
    decreases |m.stale|
  {
    if Releasable(c, m, processed) {
      PopKeeps(c, m);
      RemoveKeeps(c, Blocks(Null(m.held, m.stale[0]), m.stale[1..], m.started), processed);
    } else if m.stale != [] {
      forall i | 0 <= i < |m.stale| ensures m.stale[i] + 1 >= Cdiv(c, processed) {
        assert i > 0 ==> m.stale[0] < m.stale[i];
      }
    }
  }

  lemma StaleInside(c: Shape, m: Blocks, x: nat)
    requires BlocksOk(c, m)
    ensures x in m.stale ==> x + 1 + Spare(c, m) < |m.held|
  {
    if x in m.stale {
      var i :| 0 <= i < |m.stale| && m.stale[i] == x;
      StaleBefore(c, m, i);
    }
  }

  /** Each position after the allocation is held exactly as recorded. */
  lemma AllocateHeldAt(c: Shape, m: Blocks, n: nat, i: nat)
    requires c.block > 0 && BlocksOk(c, m) && Cdiv(c, n) + c.spec > |m.held| && (!m.started ==> Cdiv(c, n) > |m.held|)
    requires i < Cdiv(c, n) + c.spec
    ensures HeldAt(c, Allocate(c, m, n), i)
  {
    var m2 := Allocate(c, m, n);
    assert m2.held == Extend(c, m, Cdiv(c, n) + c.spec);
    assert i in m2.stale <==> i in m.stale || i in Superseded(c, m);
    assert i < |m.held| ==> HeldAt(c, m, i);
    StaleInside(c, m, i);
  }

  lemma AllocateAscends(c: Shape, m: Blocks)
    requires BlocksOk(c, m)
    ensures Ascending(m.stale + Superseded(c, m))
  {
    forall i | 0 <= i < |m.stale| ensures m.stale[i] + 1 + Spare(c, m) < |m.held| { StaleBefore(c, m, i); }
  }

  lemma AllocateKeeps(c: Shape, m: Blocks, n: nat)
    requires c.block > 0 && BlocksOk(c, m) && (!m.started ==> Cdiv(c, n) > |m.held|)
    ensures BlocksOk(c, Allocate(c, m, n))
  {
    if Cdiv(c, n) + c.spec > |m.held| {
      var m2 := Allocate(c, m, n);
      AllocateAscends(c, m);
      forall i: nat | i < |m2.held| ensures HeldAt(c, m2, i) { AllocateHeldAt(c, m, n, i); }
      StaleInside(c, m, if m.stale == [] then 0 else m.stale[|m.stale| - 1]);
    }
  }

  ghost predicate RunOk(c: Shape, r: Run) {
    && c.block > 0 && BlocksOk(c, r.m)
    && (!r.m.started ==> r.flights == [] && r.m.stale == [] && r.processed == |r.m.held| * c.block)
    && (r.m.started ==> |r.m.held| >= Cdiv(c, Computed(r)) + c.spec)
  }

  lemma CdivMore(c: Shape, h: nat, n: nat)
    requires c.block > 0 && n > 0
    ensures Cdiv(c, h * c.block) == h && Cdiv(c, h * c.block + n) > h
  {
    Arith.DivUnique(h * c.block + c.block - 1, c.block, h, c.block - 1);
    Arith.OneMore(h, c.block);
    Arith.DivLower(h * c.block + n + c.block - 1, c.block, h + 1);
  }

  /** The list is long enough after the allocation, and had room before it. */
  lemma ScheduleCovers(c: Shape, r: Run, n: nat)
    requires RunOk(c, r) && n > 0
    ensures var m, q := Remove(c, r.m, r.processed), Schedule(c, r, n);
            && (!m.started ==> Cdiv(c, Computed(r) + n) > |m.held|) && Computed(q) == Computed(r) + n
            && q.m.started && |q.m.held| >= Cdiv(c, Computed(q)) + c.spec
  {
    RemoveKeeps(c, r.m, r.processed);
    if !r.m.started {
      assert Computed(r) == |r.m.held| * c.block;
      CdivMore(c, |r.m.held|, n);
    }
    MoreComputed(r, n);
    AllocateCovers(c, Remove(c, r.m, r.processed), Computed(r) + n);
  }

  lemma ScheduleKeeps(c: Shape, r: Run, n: nat)
    requires RunOk(c, r) && n > 0
    ensures RunOk(c, Schedule(c, r, n))
  {
    RemoveKeeps(c, r.m, r.processed);
    ScheduleCovers(c, r, n);
    AllocateKeeps(c, Remove(c, r.m, r.processed), Computed(r) + n);
  }

  lemma MoreComputed(r: Run, n: nat)
    ensures r.processed + Sum(r.flights + [n]) == Computed(r) + n
  {
    SumConcat(r.flights, [n]);
    assert [n][1..] == [] && Sum([n]) == n;
  }

  lemma AllocateCovers(c: Shape, m: Blocks, n: nat)
    requires c.block > 0 && (!m.started ==> Cdiv(c, n) > |m.held|)
    ensures Allocate(c, m, n).started && |Allocate(c, m, n).held| >= Cdiv(c, n) + c.spec
  {
  }

  lemma SettleKeeps(c: Shape, r: Run, accepted: nat)
    requires RunOk(c, r) && r.flights != [] && accepted <= r.flights[0]
    ensures RunOk(c, Settle(r, accepted))
  {
    CdivMono(c, Computed(Settle(r, accepted)), Computed(r));
  }

  lemma InitialOk(c: Shape, r: Run)
    requires Initial(c, r)
    ensures RunOk(c, r)
  {
  }

  ghost predicate Reaches(c: Shape, batches: nat, r: Run, events: seq<Event>, q: Run)
    requires c.block > 0
    decreases |events|
  {
    if events == [] then r == q else Legal(r, batches, events[0]) && Reaches(c, batches, Step(c, r, events[0]), events[1..], q)
  }

  /** Main theorem: over every run, rejections included, the stale list stays strictly
      ascending and accounts for every held block outside the last 1 + spec. */
  lemma {:induction false} ReachableOk(c: Shape, batches: nat, r: Run, events: seq<Event>, q: Run)
    requires RunOk(c, r) && Reaches(c, batches, r, events, q)
    ensures RunOk(c, q) && Ascending(q.m.stale)
    decreases |events|
  {
    if events != [] {
      if events[0].ScheduleStep? {
        ScheduleKeeps(c, r, events[0].n);
      } else {
        SettleKeeps(c, r, events[0].accepted);
      }
      ReachableOk(c, batches, Step(c, r, events[0]), events[1..], q);
    }
  }

  // ----- nothing still read is freed -----

  lemma CdivMono(c: Shape, a: nat, b: nat)
    requires c.block > 0 && a <= b
    ensures Cdiv(c, a) <= Cdiv(c, b)
  {
    Arith.DivMono(a + c.block - 1, b + c.block - 1, c.block);
  }

  /** A block the release frees lies before the state block of every unsettled step. */
  lemma {:induction false} FreedIsUnread(c: Shape, r: Run, m: Blocks, i: nat, k: nat)
    requires c.block > 0 && k <= |r.flights| && i < |m.held| && m.held[i] && |Remove(c, m, r.processed).held| == |m.held|
    requires !Remove(c, m, r.processed).held[i]
    ensures i + 1 < Cdiv(c, Start(r, k))
    decreases |m.stale|
  {
    CdivMono(c, r.processed, Start(r, k));
    if Releasable(c, m, r.processed) && m.stale[0] != i {
      FreedIsUnread(c, r, Blocks(Null(m.held, m.stale[0]), m.stale[1..], m.started), i, k);
    }
  }

  // ----- how many blocks a request holds -----

  /** The spec's align-mode reservation, in pages. */
  function ReservedPages(c: Shape, batches: nat): nat { 1 + batches + c.spec }

  function HeldCount(held: seq<bool>): nat { if held == [] then 0 else (if held[0] then 1 else 0) + HeldCount(held[1..]) }

  lemma {:induction false} HeldConcat(a: seq<bool>, b: seq<bool>)
    ensures HeldCount(a + b) == HeldCount(a) + HeldCount(b)
  {
    if a == [] {
      assert a + b == b;
    } else {
      assert (a + b)[0] == a[0] && (a + b)[1..] == a[1..] + b;
      HeldConcat(a[1..], b);
    }
  }

  lemma {:induction false} HeldAtMostLength(held: seq<bool>)
    ensures HeldCount(held) <= |held|
  {
    if held != [] {
      HeldAtMostLength(held[1..]);
    }
  }

  lemma AscendingOrder(s: seq<nat>, j: nat, k: nat)
    requires Ascending(s) && j < |s| && k < |s| && s[j] < s[k]
    ensures j < k
  {
  }

  /** A list whose held positions are all listed holds at most as many as are listed. */
  lemma {:induction false} HeldAtMostListed(held: seq<bool>, listed: seq<nat>)
    requires Ascending(listed) && forall i: nat :: i < |held| && held[i] ==> i in listed
    ensures HeldCount(held) <= |listed|
    decreases |held|
  {
    if held != [] {
      var n := |held| - 1;
      assert held == held[..n] + [held[n]];
      HeldConcat(held[..n], [held[n]]);
      assert HeldCount([held[n]]) == if held[n] then 1 else 0 by { assert [held[n]][1..] == []; }
      if held[n] {
        var k :| 0 <= k < |listed| && listed[k] == n;
        forall i: nat | i < n && held[..n][i] ensures i in listed[..k] {
          assert held[i];
          var j :| 0 <= j < |listed| && listed[j] == i;
          AscendingOrder(listed, j, k);
        }
        HeldAtMostListed(held[..n], listed[..k]);
      } else {
        forall i: nat | i < n && held[..n][i] ensures i in listed { assert held[i]; }
        HeldAtMostListed(held[..n], listed);
      }
    }
  }

  /** A request holds at most its stale blocks, the running state and the speculative
      blocks. */
  lemma HeldBound(c: Shape, m: Blocks)
    requires BlocksOk(c, m)
    ensures HeldCount(m.held) <= |m.stale| + 1 + c.spec
  {
    var tail := Min(|m.held|, 1 + Spare(c, m));
    var cut := |m.held| - tail;
    assert m.held == m.held[..cut] + m.held[cut..];
    HeldConcat(m.held[..cut], m.held[cut..]);
    HeldAtMostLength(m.held[cut..]);
    forall i: nat | i < |m.held[..cut]| && m.held[..cut][i] ensures i in m.stale { assert HeldAt(c, m, i); }
    HeldAtMostListed(m.held[..cut], m.stale);
  }

  /** Listed positions that are all held are all counted. */
  lemma {:induction false} HeldAtLeastListed(held: seq<bool>, listed: seq<nat>)
    requires Ascending(listed) && forall k :: 0 <= k < |listed| ==> listed[k] < |held| && held[listed[k]]
    ensures HeldCount(held) >= |listed|
    decreases |listed|
  {
    if listed != [] {
      var n := |listed| - 1;
      var at := listed[n];
      assert held == held[..at] + held[at..];
      HeldConcat(held[..at], held[at..]);
      forall k | 0 <= k < n ensures listed[..n][k] < at && held[..at][listed[k]] { assert listed[k] < listed[n]; }
      HeldAtLeastListed(held[..at], listed[..n]);
    }
  }

  lemma {:induction false} AllHeld(held: seq<bool>)
    requires forall i :: 0 <= i < |held| ==> held[i]
    ensures HeldCount(held) == |held|
  {
    if held != [] {
      assert held[0];
      AllHeld(held[1..]);
    }
  }

  /** Once a step was scheduled, a request holds exactly its stale blocks, the running
      state and the speculative blocks. */
  lemma HeldExactly(c: Shape, m: Blocks)
    requires BlocksOk(c, m) && m.started
    ensures HeldCount(m.held) == |m.stale| + 1 + c.spec
  {
    HeldBound(c, m);
    var cut := |m.held| - 1 - c.spec;
    assert m.held == m.held[..cut] + m.held[cut..];
    HeldConcat(m.held[..cut], m.held[cut..]);
    forall i | 0 <= i < |m.held[cut..]| ensures m.held[cut..][i] { assert HeldAt(c, m, cut + i); }
    AllHeld(m.held[cut..]);
    forall k | 0 <= k < |m.stale| ensures m.stale[k] < cut && m.held[..cut][m.stale[k]] {
      StaleBefore(c, m, k);
      assert HeldAt(c, m, m.stale[k]);
    }
    HeldAtLeastListed(m.held[..cut], m.stale);
  }

  // ----- counting and keeping recorded blocks -----

  /** How many recorded blocks lie at or after index `lo`. */
  function CountFrom(stale: seq<nat>, lo: int): nat {
    if stale == [] then 0 else (if stale[0] >= lo then 1 else 0) + CountFrom(stale[1..], lo)
  }

  lemma {:induction false} CountFromConcat(a: seq<nat>, b: seq<nat>, lo: int)
    ensures CountFrom(a + b, lo) == CountFrom(a, lo) + CountFrom(b, lo)
  {
    if a == [] {
      assert a + b == b;
    } else {
      assert (a + b)[0] == a[0] && (a + b)[1..] == a[1..] + b;
      CountFromConcat(a[1..], b, lo);
    }
  }

  lemma {:induction false} CountFromNone(stale: seq<nat>, lo: int)
    requires forall i :: 0 <= i < |stale| ==> stale[i] < lo
    ensures CountFrom(stale, lo) == 0
  {
    if stale != [] {
      CountFromNone(stale[1..], lo);
    }
  }

  lemma {:induction false} CountFromAll(stale: seq<nat>, lo: int)
    requires forall i :: 0 <= i < |stale| ==> stale[i] >= lo
    ensures CountFrom(stale, lo) == |stale|
  {
    if stale != [] {
      CountFromAll(stale[1..], lo);
    }
  }

  lemma {:induction false} RemoveCounts(c: Shape, m: Blocks, processed: nat, lo: int)
    requires c.block > 0
    ensures CountFrom(Remove(c, m, processed).stale, lo) <= CountFrom(m.stale, lo)
    decreases |m.stale|
  {
    if Releasable(c, m, processed) {
      RemoveCounts(c, Blocks(Null(m.held, m.stale[0]), m.stale[1..], m.started), processed, lo);
    }
  }

  /** The state block that the `k`-th unsettled step reads is held. */
  ghost predicate ReadsHeld(c: Shape, r: Run, k: nat)
    requires c.block > 0 && k <= |r.flights|
  {
    Start(r, k) > 0 ==> 1 <= Cdiv(c, Start(r, k)) <= |r.m.held| && r.m.held[Cdiv(c, Start(r, k)) - 1]
  }

  lemma {:induction false} SumConcat(a: seq<nat>, b: seq<nat>)
    ensures Sum(a + b) == Sum(a) + Sum(b)
  {
    if a == [] {
      assert a + b == b;
    } else {
      assert (a + b)[0] == a[0] && (a + b)[1..] == a[1..] + b;
      SumConcat(a[1..], b);
    }
  }

  lemma StartAfter(r: Run, n: nat, m: Blocks, k: nat)
    requires k <= |r.flights|
    ensures Start(Run(m, r.processed, r.flights + [n]), k) == Start(r, k)
    ensures Start(Run(m, r.processed, r.flights + [n]), |r.flights| + 1) == Computed(r) + n == Computed(Run(m, r.processed, r.flights + [n]))
  {
    assert (r.flights + [n])[..k] == r.flights[..k];
    assert (r.flights + [n])[..|r.flights| + 1] == r.flights + [n];
    SumConcat(r.flights, [n]);
    assert [n][1..] == [] && Sum([n]) == n;
  }

  lemma {:induction false} RemoveSpares(c: Shape, m: Blocks, processed: nat, i: nat)
    requires c.block > 0 && i < |m.held| && m.held[i] && i + 1 >= Cdiv(c, processed)
    ensures i < |Remove(c, m, processed).held| && Remove(c, m, processed).held[i]
    decreases |m.stale|
  {
    if Releasable(c, m, processed) {
      RemoveSpares(c, Blocks(Null(m.held, m.stale[0]), m.stale[1..], m.started), processed, i);
    }
  }

  lemma CdivPositive(c: Shape, n: nat)
    requires c.block > 0 && n > 0
    ensures Cdiv(c, n) >= 1
  {
    Arith.DivLower(n + c.block - 1, c.block, 1);
  }

  lemma PrefixSum(s: seq<nat>, k: nat)
    requires k <= |s|
    ensures Sum(s[..k]) <= Sum(s)
  {
    SumConcat(s[..k], s[k..]);
    assert s == s[..k] + s[k..];
  }

  /** Allocation keeps every state block at or before the running state. */
  lemma AllocateHolds(c: Shape, m: Blocks, n: nat, i: nat)
    requires c.block > 0 && BlocksOk(c, m) && (!m.started ==> Cdiv(c, n) > |m.held|)
    requires i + 1 + Spare(c, m) <= |m.held| && m.held[i]
    ensures i < |Allocate(c, m, n).held| && Allocate(c, m, n).held[i]
  {
    var m2 := Allocate(c, m, n);
    if Cdiv(c, n) + c.spec > |m.held| {
      AllocateKeeps(c, m, n);
      assert HeldAt(c, m, i);
      assert m2.held == Extend(c, m, Cdiv(c, n) + c.spec) && m2.stale == m.stale + Superseded(c, m);
      assert i !in m.stale ==> Superseded(c, m) == [i];
      assert i in m2.stale;
      assert HeldAt(c, m2, i);
    }
  }

  lemma CdivSpan(c: Shape, p: nat, batches: nat, n: nat)
    requires c.block > 0 && n <= p + batches * c.block
    ensures Cdiv(c, n) <= Cdiv(c, p) + batches
  {
    CdivMono(c, n, p + batches * c.block);
    Arith.DivMulBounds(p + c.block - 1, c.block);
    var x, d := p + c.block - 1, c.block;
    assert (x / d + batches) * d == x / d * d + batches * d;
    Arith.DivUnique(x + batches * d, d, x / d + batches, x - x / d * d);
  }

  // ----- the request's record in the manager -----

  class MambaRequest {
    const c: Shape
    var held: seq<bool>
    var stale: seq<nat>
    var started: bool

    ghost function Abs(): Blocks
      reads this
    {
      Blocks(held, stale, started)
    }

    ghost predicate Valid()
      reads this
    {
      c.block > 0 && BlocksOk(c, Abs())
    }

    /** A new request, with `hit` blocks from the prefix cache. */
    constructor (c: Shape, hit: nat)
      requires c.block > 0
      ensures Valid() && this.c == c && Initial(c, Run(Abs(), hit * c.block, []))
    {
      this.c := c;
      held := seq(hit, i => i + 1 == hit);
      stale, started := [], false;
    }

    /** `remove_skipped_blocks`; returns the indices freed, in order. */
    method RemoveSkipped(processed: nat) returns (freed: seq<nat>)
      requires Valid()
      modifies this`held, this`stale
      ensures Valid() && Abs() == Remove(c, old(Abs()), processed)
      ensures old(stale) == freed + stale
      ensures forall k :: 0 <= k < |freed| ==> freed[k] + 1 < Cdiv(c, processed)
    {
      RemoveKeeps(c, Abs(), processed);
      freed := ReleaseLoop(processed);
    }

    method ReleaseLoop(processed: nat) returns (freed: seq<nat>)
      requires c.block > 0
      modifies this`held, this`stale
      ensures Abs() == Remove(c, old(Abs()), processed) && old(stale) == freed + stale
      ensures forall k :: 0 <= k < |freed| ==> freed[k] + 1 < Cdiv(c, processed)
    {
      freed := [];
      var releasableBelow := Cdiv(c, processed) - 1;
      while stale != [] && stale[0] < releasableBelow
        invariant Remove(c, Abs(), processed) == Remove(c, old(Abs()), processed) && started == old(started)
        invariant old(stale) == freed + stale
        invariant forall k :: 0 <= k < |freed| ==> freed[k] + 1 < Cdiv(c, processed)
        decreases |stale|
      {
        var i := stale[0];
        assert Releasable(c, Abs(), processed);
        PopFront(freed, stale);
        freed := freed + [i];
        stale := stale[1..];
        held := Null(held, i);
      }
    }

    /** `allocate_new_blocks`. */
    method AllocateNew(n: nat)
      requires Valid() && (!started ==> Cdiv(c, n) > |held|)
      modifies this
      ensures Valid() && Abs() == Allocate(c, old(Abs()), n)
    {
      AllocateKeeps(c, Abs(), n);
      Grow(n);
    }

    method Grow(n: nat)
      requires c.block > 0 && (started ==> |held| >= 1 + c.spec)
      modifies this
      ensures Abs() == Allocate(c, old(Abs()), n)
    {
      var required := Cdiv(c, n) + c.spec;
      if required > |held| {
        var prev := |held|;
        var extended := Extend(c, Blocks(held, stale, started), required);
        if started {
          stale := stale + [prev - 1 - c.spec];
        } else if prev > 0 {
          stale := stale + [prev - 1];
        }
        held, started := extended, true;
      }
    }

    /** Finish or preemption: the list goes with the blocks. */
    method PopForFree()
      modifies this
      ensures held == [] && stale == [] && !started
    {
      held, stale, started := [], [], false;
    }
  }
}
