/** Safety of the fair mixed-prefill policy over every run of the protocol. */
module FairRuns {
  import opened Common
  import opened FairCost
  import L = FairLedger
  import I = FairInvariant
  import opened FairSelection
  import opened FairPolicy

  ghost predicate StateOk(c: L.Config, s: State) {
    CoreOk(c, s) && s.sel.refused <= s.sel.tried
  }

  ghost predicate CoreOk(c: L.Config, s: State) {
    && L.ValidConfig(c)
    && ValidSamples(s.mixed) && ValidSamples(s.solo)
    && (s.mode == PrefillTurn ==> c.mode == L.Fair)
    && L.LedgerOk(s.led, c.share)
    && FlightsHavePositiveWork(s.led.inflight)
    && SelectionOk(s.sel, Granted(s), c.maxChunks)
    && TurnOk(s)
    && L.SumCosts(L.Grants(s.led)) <= c.maxStepS + TOL
  }

  /** Requests are selected only in a prefill turn, and a turn is contended by a
      decoder and has no other prefill in flight. */
  ghost predicate TurnOk(s: State) {
    && (s.mode != PrefillTurn ==> s.sel.selected == {})
    && (s.mode == PrefillTurn && s.led.open.Some? ==>
          s.led.inContention && s.led.open.value.hadDecode && !L.PrefillInflight(s.led.inflight))
  }

  lemma BeginLedgerKeeps(c: L.Config, led: L.Ledger, swapped: bool, m: CostModel, now: real, v: View)
    requires L.ValidConfig(c) && ValidModel(m) && L.LedgerOk(led, c.share)
    ensures var l := BeginLedger(c, led, swapped, m, now, v);
            && L.LedgerOk(l, c.share)
            && l.open.Some? && l.open.value.grants == [] && !l.open.value.borrowed
            && (BeginMode(c, v, l.inflight) == PrefillTurn ==> l.inContention && l.open.value.hadDecode && !L.PrefillInflight(l.inflight))
            && (forall f :: f in l.inflight ==> f in led.inflight)
            && (!swapped ==> l.lastAccount == led.lastAccount)
  {
    I.ForgetKeeps(led, c.share);
    EstimateMonotone(m, c.chunk, c.chunk);
    var from := if swapped then L.Forget(led) else led;
    var fair, decode, prefill := c.mode == L.Fair, HasDecode(v.running), Prefills(v.running + v.waiting) != [];
    var probe := MinR(c.maxStepS, Estimate(m, c.chunk));
    I.BeginKeeps(from, c.share, v.step, now, fair, decode, prefill, probe);
    I.BeginShape(from, v.step, now, fair, decode, prefill, probe);
    assert BeginLedger(c, led, swapped, m, now, v) == L.Begin(from, v.step, now, fair, decode, prefill, probe);
  }

  lemma BeginSelectionOk(c: L.Config, svc: Service, surviving: set<Rid>, v: View, mode: StepMode)
    ensures var sel := BeginSelection(c, svc, surviving, v, mode);
            && SelectionOk(sel, {}, c.maxChunks) && sel.refused == {} && sel.licensed <= surviving
            && (if mode == PrefillTurn then RankedStart(sel) else sel.selected == {})
  {
    var prefills := Prefills(v.running + v.waiting);
    RankingByTier(v.byPriority, svc, {}, prefills);
    UniqueUnderPermutation(prefills, Rank(v.byPriority, svc, prefills));
    StartTurnOk(FreshSelection(svc, surviving, v), c.maxChunks);
  }

  lemma BeginKeeps(c: L.Config, s: State, now: real, v: View)
    requires StateOk(c, s)
    ensures StateOk(c, Begin(c, s, now, v))
  {
    if s.tag != Some((v.sid, v.step)) {
      var swapped := Swapped(s, v);
      BeginLedgerKeeps(c, s.led, swapped, Model(s), now, v);
      var led := BeginLedger(c, s.led, swapped, Model(s), now, v);
      var svc := BeginService(s.svc, now, v);
      var mode := BeginMode(c, v, led.inflight);
      var surviving := SurvivingRefusals(OwnRefusals(s, v), s.svc, v);
      BeginSelectionOk(c, svc, surviving, v, mode);
      FreshStep(c, s, Begin(c, s, now, v), led, BeginSelection(c, svc, surviving, v, mode), mode);
    }
  }

  lemma FreshStep(c: L.Config, s: State, s2: State, led: L.Ledger, sel: Selection, mode: StepMode)
    requires StateOk(c, s)
    requires s2.led == led && s2.sel == sel && s2.mode == mode && s2.mixed == s.mixed && s2.solo == s.solo
    requires L.LedgerOk(led, c.share) && L.Grants(led) == []
    requires mode == PrefillTurn ==> c.mode == L.Fair && led.inContention && led.open.Some? && led.open.value.hadDecode && !L.PrefillInflight(led.inflight)
    requires forall f :: f in led.inflight ==> f in s.led.inflight
    requires SelectionOk(sel, {}, c.maxChunks) && sel.refused == {} && (mode != PrefillTurn ==> sel.selected == {})
    ensures StateOk(c, s2)
  {
    assert Granted(s2) == {};
    forall i, j | 0 <= i < |led.inflight| && 0 <= j < |led.inflight[i].prefill| ensures led.inflight[i].prefill[j].n > 0 {
      assert led.inflight[i] in s.led.inflight;
    }
  }

  lemma ReleaseCore(c: L.Config, s: State, rid: Rid, why: Reason)
    requires CoreOk(c, s)
    ensures CoreOk(c, Release(c, s, rid, why))
  {
    if s.led.open.Some? && (rid in s.sel.selected || rid in Granted(s)) {
      ReleaseLedger(s.led, c.share, rid);
      DropGrantIds(L.Grants(s.led), rid);
      FairSelection.ReleaseKeeps(s.sel, Granted(s), c.maxChunks, rid, why.Allocation?);
      var s2 := Release(c, s, rid, why);
      assert Granted(s2) == Granted(s) - {rid};
      assert SelectionOk(s2.sel, Granted(s2), c.maxChunks);
    }
  }

  lemma ReleaseTried(c: L.Config, s: State, rid: Rid, why: Reason)
    ensures var s2 := Release(c, s, rid, why);
            && s2.sel.refused == s.sel.refused && s.sel.tried <= s2.sel.tried
            && (s.led.open.Some? && (rid in s.sel.selected || rid in Granted(s)) ==> rid in s2.sel.tried)
  {
  }

  lemma ReleaseKeeps(c: L.Config, s: State, rid: Rid, why: Reason)
    requires StateOk(c, s)
    ensures StateOk(c, Release(c, s, rid, why))
  {
    ReleaseCore(c, s, rid, why);
    ReleaseTried(c, s, rid, why);
  }

  lemma ReleaseLedger(l: L.Ledger, share: real, rid: Rid)
    requires L.LedgerOk(l, share) && l.open.Some?
    ensures var l2 := L.TakeBack(l, rid);
            && L.LedgerOk(l2, share) && l2.open.Some? && l2.inflight == l.inflight && l2.inContention == l.inContention
            && l2.open.value.hadDecode == l.open.value.hadDecode
            && L.Grants(l2) == L.DropGrant(L.Grants(l), rid)
            && L.SumCosts(L.Grants(l2)) <= L.SumCosts(L.Grants(l))
  {
    I.TakeBackKeeps(l, share, rid);
    L.DropGrantSpec(L.Grants(l), rid);
    if !L.HasGrant(L.Grants(l), rid) { DropMissing(L.Grants(l), rid); }
  }

  lemma {:induction false} DropMissing(g: seq<L.Grant>, rid: Rid)
    requires !L.HasGrant(g, rid)
    ensures L.DropGrant(g, rid) == g
  {
    if g != [] {
      assert g[0].rid != rid;
      assert forall i :: 0 <= i < |g[1..]| ==> g[1..][i] == g[i + 1];
      DropMissing(g[1..], rid);
    }
  }

  lemma DropGrantIds(g: seq<L.Grant>, rid: Rid)
    requires L.UniqueGrants(g)
    ensures GrantIds(L.DropGrant(g, rid)) == GrantIds(g) - {rid}
  {
    var d := L.DropGrant(g, rid);
    L.DropGrantSpec(g, rid);
    forall i | 0 <= i < |d| ensures d[i] in g && d[i].rid != rid { assert d[i] in d; }
    forall i | 0 <= i < |g| && g[i].rid != rid ensures g[i] in d { }
  }

  lemma GrantKeeps(c: L.Config, s: State, rid: Rid, p: Pick, borrowed: bool)
    requires StateOk(c, s) && s.led.open.Some? && s.mode == PrefillTurn
    requires rid in s.sel.selected && !L.HasGrant(L.Grants(s.led), rid)
    requires 0.01 <= p.cost <= GapRoom(c, s) + TOL && s.led.credit >= -TOL
    ensures StateOk(c, Grant(s, rid, p, borrowed))
  {
    var g := L.Grant(rid, p.tokens, p.cost, borrowed);
    I.GiveKeeps(s.led, c.share, g);
    L.SumCostsAppend(L.Grants(s.led), g);
    GrantIdsAppend(L.Grants(s.led), g);
    var s2 := Grant(s, rid, p, borrowed);
    assert Granted(s2) == Granted(s) + {rid};
    assert SelectionOk(s2.sel, Granted(s2), c.maxChunks);
    assert TurnOk(s2);
  }

  lemma GrantIdsAppend(a: seq<L.Grant>, g: L.Grant)
    ensures GrantIds(a + [g]) == GrantIds(a) + {g.rid}
  {
    var b := a + [g];
    assert b[|a|].rid == g.rid;
    assert forall i :: 0 <= i < |a| ==> b[i] == a[i];
  }

  /** Whatever is allowed costs at least the estimate floor, fits the step's room, and
      was decided with the shared credit repaid. */
  lemma DecideBounds(c: L.Config, s: State, now: real, r: Request, remaining: nat)
    requires ValidSamples(s.mixed) && s.led.open.Some?
    ensures var d := Decide(c, s, now, r, remaining);
            d.Allow? ==>
              && 0.01 <= d.pick.cost <= GapRoom(c, s) + TOL && s.led.credit >= -TOL
              && (if d.borrowed then MayBorrow(c, s, now, r) && d.pick.cost > s.led.credit + TOL
                  else d.pick.cost <= s.led.credit + TOL)
  {
    TargetCost(Model(s), c.chunk, Some(remaining), GapRoom(c, s));
    TargetCost(Model(s), c.chunk, Some(remaining), MinR(GapRoom(c, s), MaxR(0.0, s.led.credit)));
  }

  lemma AdmitKeeps(c: L.Config, s: State, now: real, r: Request, remaining: nat)
    requires StateOk(c, s) && s.led.open.Some? && s.mode == PrefillTurn
    requires r.id in s.sel.selected && !L.HasGrant(L.Grants(s.led), r.id)
    ensures StateOk(c, Admit(c, s, now, r, remaining).state)
  {
    DecideBounds(c, s, now, r, remaining);
    match Decide(c, s, now, r, remaining)
    case Allow(pick, borrowed) => GrantKeeps(c, s, r.id, pick, borrowed);
    case Deny(why) => DeferKeeps(c, s, r, why);
  }

  lemma DeferKeeps(c: L.Config, s: State, r: Request, why: Reason)
    requires StateOk(c, s)
    ensures StateOk(c, Defer(c, s, r, why).state)
  {
    var d := s.(sel := s.sel.(deferred := s.sel.deferred + {Tier(s.sel.priorityMode, r)}));
    NotesKeep(c, s, s.sel.passed, d.sel.deferred);
    ReleaseKeeps(c, d, r.id, why);
  }

  /** Notes about passed and deferred candidates do not touch the invariant. */
  lemma NotesKeep(c: L.Config, s: State, passed: set<Rid>, deferred: set<int>)
    requires StateOk(c, s)
    ensures StateOk(c, s.(sel := s.sel.(passed := passed, deferred := deferred)))
  {
    var s2 := s.(sel := s.sel.(passed := passed, deferred := deferred));
    assert Granted(s2) == Granted(s);
    assert SelectionOk(s2.sel, Granted(s2), c.maxChunks);
  }

  lemma CapInStepKeeps(c: L.Config, s: State, now: real, v: View, r: Request, computed: Option<nat>)
    requires StateOk(c, s) && (c.mode == L.Fair ==> s.led.open.Some?)
    ensures StateOk(c, CapInStep(c, s, now, v, r, computed).state)
  {
    NotesKeep(c, s, s.sel.passed + {r.id}, s.sel.deferred);
    var s1 := s.(sel := s.sel.(passed := s.sel.passed + {r.id}));
    if Remaining(r, computed) > 0 && c.mode == L.Fair && s1.mode == PrefillTurn && r.id in s1.sel.selected
       && L.FindGrant(L.Grants(s.led), r.id).None? {
      AdmitKeeps(c, s1, now, r, Remaining(r, computed));
      assert CapInStep(c, s, now, v, r, computed) == Admit(c, s1, now, r, Remaining(r, computed));
    } else {
      assert CapInStep(c, s, now, v, r, computed).state == s || CapInStep(c, s, now, v, r, computed).state == s1;
    }
  }

  lemma CapForKeeps(c: L.Config, s: State, now: real, v: View, r: Request, computed: Option<nat>)
    requires StateOk(c, s)
    requires c.mode == L.Fair ==> Begin(c, s, now, v).led.open.Some?
    ensures StateOk(c, CapFor(c, s, now, v, r, computed).state)
  {
    BeginKeeps(c, s, now, v);
    CapInStepKeeps(c, Begin(c, s, now, v), now, v, r, computed);
  }

  lemma AllocFailedKeeps(c: L.Config, s: State, rid: Rid)
    requires StateOk(c, s)
    ensures StateOk(c, NoteAllocFailed(c, s, rid))
  {
    var s1 := s.(sel := s.sel.(refused := s.sel.refused + {rid}));
    assert Granted(s1) == Granted(s);
    assert SelectionOk(s1.sel, Granted(s1), c.maxChunks);
    ReleaseCore(c, s, rid, Allocation);
    ReleaseTried(c, s, rid, Allocation);
    ReleaseCore(c, s1, rid, Allocation);
    ReleaseTried(c, s1, rid, Allocation);
  }

  /** The base scheduler's contract with the caps it was given: in a decode-carrying
      step of fair mode it schedules prompt tokens only for requests holding a grant. */
  predicate HonoursCaps(c: L.Config, s: State, v: View, scheduled: seq<L.Work>) {
    s.led.open.Some? && s.led.open.value.hadDecode && c.mode == L.Fair ==>
      forall w :: w in PrefillWork(v, scheduled) ==> L.HasGrant(L.Grants(s.led), w.rid)
  }

  lemma FinishKeeps(c: L.Config, s: State, v: View, key: int, scheduled: seq<L.Work>)
    requires StateOk(c, s) && HonoursCaps(c, s, v, scheduled)
    requires L.IndexOf(s.led.inflight, key).None?
    ensures StateOk(c, Finish(c, s, v, key, scheduled))
  {
    if s.led.open.Some? {
      var w := PrefillWork(v, scheduled);
      var owners := Owners(s.svc, w);
      if w != [] && c.mode == L.Fair && s.led.open.value.hadDecode {
        assert w[0] in w;
        assert L.HasGrant(L.Grants(s.led), w[0].rid);
      }
      NoTurnNoGrants(c, s);
      FinishLedger(c, s, key, w, scheduled == [], owners);
      var s2 := Finish(c, s, v, key, scheduled);
      assert Granted(s2) == {};
    }
  }

  lemma NoTurnNoGrants(c: L.Config, s: State)
    requires StateOk(c, s)
    ensures s.mode != PrefillTurn ==> L.Grants(s.led) == []
  {
    assert L.Grants(s.led) != [] ==> L.Grants(s.led)[0].rid in Granted(s);
  }

  lemma FinishLedger(c: L.Config, s: State, key: int, w: seq<L.Work>, empty: bool, owners: map<Rid, int>)
    requires StateOk(c, s) && s.led.open.Some? && (empty ==> w == [])
    requires c.mode != L.Fair ==> L.Grants(s.led) == []
    requires c.mode == L.Fair && s.led.open.value.hadDecode && w != [] ==> L.Grants(s.led) != []
    requires forall i :: 0 <= i < |w| ==> w[i].n > 0
    requires L.IndexOf(s.led.inflight, key).None?
    ensures var l2 := L.Seal(s.led, Model(s), key, w, empty, c.mode == L.Fair, owners);
            L.LedgerOk(l2, c.share) && FlightsHavePositiveWork(l2.inflight) && L.Grants(l2) == []
  {
    I.SealKeeps(s.led, c.share, Model(s), key, w, empty, c.mode == L.Fair, owners);
  }

  lemma {:induction false} TotalPositive(w: seq<L.Work>)
    requires forall i :: 0 <= i < |w| ==> w[i].n > 0
    ensures L.TotalWork(w) > 0 <==> w != []
  {
    if w != [] {
      TotalPositive(w[1..]);
    }
  }

  lemma AppendSample(s: seq<Sample>, when: bool, n: nat, dt: real, k: nat)
    requires ValidSamples(s)
    ensures ValidSamples(AddSample(s, when, n, dt, k))
  {
  }

  lemma SettledKeeps(c: L.Config, s: State, now: real, v: View, i: nat, actual: map<Rid, int>)
    requires StateOk(c, s) && i < |s.led.inflight|
    ensures StateOk(c, Settled(c, s, now, v, i, actual))
  {
    var f := s.led.inflight[i];
    var served := Served(f.prefill, actual);
    var n, dt := L.TotalWork(served), L.Elapsed(s.led, f, now);
    SettleLedger(c, s, i, now, served);
    AppendSample(s.mixed, f.hadDecode, n, dt, 64);
    AppendSample(s.solo, !f.hadDecode, n, dt, 32);
    var s2 := Settled(c, s, now, v, i, actual);
    assert s2.sel == PruneSelection(s.sel, LiveIds(v));
    SettledState(c, s, s2, i, LiveIds(v));
  }

  lemma ObserveKeeps(c: L.Config, s: State, now: real, v: View, key: int, actual: map<Rid, int>)
    requires StateOk(c, s)
    ensures StateOk(c, Observe(c, s, now, v, key, actual))
  {
    match L.IndexOf(s.led.inflight, key)
    case None =>
    case Some(i) => SettledKeeps(c, s, now, v, i, actual);
  }

  lemma SettleLedger(c: L.Config, s: State, i: nat, now: real, served: seq<L.Work>)
    requires StateOk(c, s) && i < |s.led.inflight|
    requires s.led.inflight[i].prefill == [] ==> served == []
    requires forall j :: 0 <= j < |served| ==> served[j].n > 0
    ensures L.LedgerOk(L.Settle(s.led, c.share, CreditLimit(c, s), i, now, L.TotalWork(served) > 0), c.share)
  {
    TotalPositive(served);
    EstimateMonotone(Model(s), Max(c.chunk, LADDER_MAX), Max(c.chunk, LADDER_MAX));
    I.SettleKeeps(s.led, c.share, CreditLimit(c, s), i, now, L.TotalWork(served) > 0);
  }

  lemma SettledState(c: L.Config, s: State, s2: State, i: nat, live: set<Rid>)
    requires StateOk(c, s) && i < |s.led.inflight|
    requires s2.led.inflight == s.led.inflight[..i] + s.led.inflight[i + 1..]
    requires s2.led.open == s.led.open && s2.led.inContention == s.led.inContention && s2.mode == s.mode
    requires ValidSamples(s2.mixed) && ValidSamples(s2.solo) && L.LedgerOk(s2.led, c.share)
    requires s2.sel == PruneSelection(s.sel, live)
    ensures StateOk(c, s2)
  {
    I.WithoutFlight(s.led.inflight, i);
    assert Granted(s2) == Granted(s);
    if j :| 0 <= j < |s2.led.inflight| && s2.led.inflight[j].prefill != [] {
      assert s.led.inflight[I.Skip(i, j)].prefill != [];
    }
    assert SelectionOk(s2.sel, Granted(s2), c.maxChunks);
  }

  // ----- runs -----

  datatype Event =
    | BeginStep(now: real, view: View)
    | Cap(now: real, view: View, request: Request, computed: Option<nat>)
    | Scheduled(rid: Rid, tokens: int)
    | AllocFailed(rid: Rid)
    | FinishStep(view: View, key: int, scheduled: seq<L.Work>)
    | ObserveOutput(now: real, view: View, key: int, actual: map<Rid, int>)

  /** The protocol: caps are asked for inside a step, the base scheduler honours them,
      and every dispatched output is a new object. Completions may be observed at any
      point, in any order, any number of times. */
  predicate Legal(c: L.Config, s: State, e: Event)
    requires ValidSamples(s.mixed)
  {
    match e
    case Cap(now, v, _, _) => c.mode == L.Fair ==> Begin(c, s, now, v).led.open.Some?
    case FinishStep(v, key, work) => HonoursCaps(c, s, v, work) && L.IndexOf(s.led.inflight, key).None?
    case _ => true
  }

  ghost function Step(c: L.Config, s: State, e: Event): (s2: State)
    requires StateOk(c, s) && Legal(c, s, e)
    ensures StateOk(c, s2)
  {
    match e
    case BeginStep(now, v) => BeginKeeps(c, s, now, v); Begin(c, s, now, v)
    case Cap(now, v, r, computed) => CapForKeeps(c, s, now, v, r, computed); CapFor(c, s, now, v, r, computed).state
    case Scheduled(rid, n) => ReleaseKeeps(c, s, rid, ZeroProgress); NoteScheduled(c, s, rid, n)
    case AllocFailed(rid) => AllocFailedKeeps(c, s, rid); NoteAllocFailed(c, s, rid)
    case FinishStep(v, key, work) => FinishKeeps(c, s, v, key, work); Finish(c, s, v, key, work)
    case ObserveOutput(now, v, key, actual) => ObserveKeeps(c, s, now, v, key, actual); Observe(c, s, now, v, key, actual)
  }

  /** The states of a run from `s` over legal events. */
  ghost predicate IsRun(c: L.Config, s: State, es: seq<Event>, t: State)
    decreases |es|
  {
    StateOk(c, s) &&
    if es == [] then t == s
    else Legal(c, s, es[0]) && IsRun(c, Step(c, s, es[0]), es[1..], t)
  }

  lemma InitOk(c: L.Config)
    requires L.ValidConfig(c)
    ensures StateOk(c, Init())
  {
    assert Granted(Init()) == {};
  }

  lemma {:induction false} RunKeepsOk(c: L.Config, s: State, es: seq<Event>, t: State)
    requires IsRun(c, s, es, t)
    ensures StateOk(c, t)
    decreases |es|
  {
    if es != [] {
      RunKeepsOk(c, Step(c, s, es[0]), es[1..], t);
    }
  }

  /** Main theorem 1. However dispatches and completions interleave, in any reachable
      contended state the accounted time of the episode's completed decode steps that
      also served prefill is at most the entry credit, plus the configured share of
      the accounted time of all its completed decode steps, plus one such step and the
      tolerance. */
  lemma ContentionTimeBound(c: L.Config, es: seq<Event>, t: State)
    requires L.ValidConfig(c) && IsRun(c, Init(), es, t) && t.led.inContention
    ensures L.WithinShare(t.led.entry, c.share, t.led.charges)
  {
    RunKeepsOk(c, Init(), es, t);
    L.EpisodeBound(t.led, c.share);
  }

  /** Main theorem 2. In every reachable state: no selected candidate overtakes a
      higher tier except on the refusal licence, selections and grants respect the
      chunk limit, the granted time respects the step limit, at most one dispatched
      step holds a reservation, and outside contention nothing is granted. */
  lemma ReachableSafety(c: L.Config, es: seq<Event>, t: State)
    requires L.ValidConfig(c) && IsRun(c, Init(), es, t)
    ensures NoOvertaking(t.sel)
    ensures |t.sel.selected| <= c.maxChunks && |L.Grants(t.led)| <= c.maxChunks
    ensures L.SumCosts(L.Grants(t.led)) <= c.maxStepS + TOL
    ensures forall i, j :: 0 <= i < j < |t.led.inflight| ==> t.led.inflight[i].reserved == 0.0 || t.led.inflight[j].reserved == 0.0
    ensures !t.led.inContention ==> L.Grants(t.led) == [] && forall f :: f in t.led.inflight ==> f.reserved == 0.0
  {
    RunKeepsOk(c, Init(), es, t);
    GrantCount(L.Grants(t.led));
    SubsetSize(Granted(t), t.sel.selected);
    forall i, j | 0 <= i < j < |t.led.inflight|
      ensures t.led.inflight[i].reserved == 0.0 || t.led.inflight[j].reserved == 0.0
    {
      I.ReservationsAreExclusive(t.led, c.share, i, j);
    }
  }

  lemma {:induction false} GrantCount(g: seq<L.Grant>)
    requires L.UniqueGrants(g)
    ensures |GrantIds(g)| == |g|
  {
    if g != [] {
      GrantCount(g[1..]);
      assert g[0].rid !in GrantIds(g[1..]) by {
        assert forall i :: 0 <= i < |g[1..]| ==> g[1..][i] == g[i + 1];
      }
      assert GrantIds(g) == {g[0].rid} + GrantIds(g[1..]) by {
        assert forall i :: 1 <= i < |g| ==> g[i] == g[1..][i - 1];
      }
    }
  }

  // ----- the refusal licence lasts one step -----

  /** A refusal on record means the request was selected or granted when the native
      allocation refused it, somewhere in the run. */
  ghost predicate RefusedWhileSelected(c: L.Config, s: State, es: seq<Event>, rid: Rid)
    requires StateOk(c, s)
    decreases |es|
  {
    es != [] && Legal(c, s, es[0]) &&
    ((es[0] == AllocFailed(rid) && s.led.open.Some? && (rid in s.sel.selected || rid in Granted(s)))
     || RefusedWhileSelected(c, Step(c, s, es[0]), es[1..], rid))
  }

  lemma StepRefusals(c: L.Config, s: State, e: Event, rid: Rid)
    requires StateOk(c, s) && Legal(c, s, e)
    requires rid in Step(c, s, e).sel.refused && rid !in s.sel.refused
    ensures e == AllocFailed(rid) && s.led.open.Some? && (rid in s.sel.selected || rid in Granted(s))
  {
    match e
    case BeginStep(now, v) => BeginRefusals(c, s, now, v);
    case Cap(now, v, r, computed) => BeginRefusals(c, s, now, v); CapRefusals(c, Begin(c, s, now, v), now, v, r, computed);
    case Scheduled(r, n) => ReleaseTried(c, s, r, ZeroProgress);
    case AllocFailed(r) =>
      ReleaseTried(c, s, r, Allocation);
      ReleaseTried(c, s.(sel := s.sel.(refused := s.sel.refused + {r})), r, Allocation);
    case FinishStep(v, key, work) =>
    case ObserveOutput(now, v, key, actual) =>
  }

  lemma BeginRefusals(c: L.Config, s: State, now: real, v: View)
    requires ValidSamples(s.mixed)
    ensures Begin(c, s, now, v).sel.refused <= s.sel.refused
  {
    if s.tag != Some((v.sid, v.step)) {
      var mode := BeginMode(c, v, BeginLedger(c, s.led, Swapped(s, v), Model(s), now, v).inflight);
      BeginSelectionOk(c, BeginService(s.svc, now, v), SurvivingRefusals(OwnRefusals(s, v), s.svc, v), v, mode);
    }
  }

  lemma CapRefusals(c: L.Config, s: State, now: real, v: View, r: Request, computed: Option<nat>)
    requires ValidSamples(s.mixed) && (c.mode == L.Fair ==> s.led.open.Some?)
    ensures CapInStep(c, s, now, v, r, computed).state.sel.refused == s.sel.refused
  {
    if c.mode == L.Fair {
      AdmitRefusals(c, s.(sel := s.sel.(passed := s.sel.passed + {r.id})), now, r, Remaining(r, computed));
    }
  }

  lemma AdmitRefusals(c: L.Config, s: State, now: real, r: Request, remaining: nat)
    requires ValidSamples(s.mixed) && s.led.open.Some?
    ensures Admit(c, s, now, r, remaining).state.sel.refused == s.sel.refused
  {
    match Decide(c, s, now, r, remaining)
    case Allow(_, _) =>
    case Deny(why) => DeferRefusals(c, s, r, why);
  }

  lemma DeferRefusals(c: L.Config, s: State, r: Request, why: Reason)
    ensures Defer(c, s, r, why).state.sel.refused == s.sel.refused
  {
    ReleaseTried(c, s.(sel := s.sel.(deferred := s.sel.deferred + {Tier(s.sel.priorityMode, r)})), r.id, why);
  }

  lemma {:induction false} RefusalsComeFromSelections(c: L.Config, s: State, es: seq<Event>, t: State, rid: Rid)
    requires IsRun(c, s, es, t) && rid in t.sel.refused && rid !in s.sel.refused
    ensures RefusedWhileSelected(c, s, es, rid)
    decreases |es|
  {
    var s2 := Step(c, s, es[0]);
    if rid in s2.sel.refused {
      StepRefusals(c, s, es[0], rid);
    } else {
      RefusalsComeFromSelections(c, s2, es[1..], t, rid);
    }
  }

  /** Main theorem 3. Let a step open in state `s` (so nothing is refused yet) and run
      to `t`, where the next step opens. A candidate skipped on the refusal licence in
      the new step was selected or granted during this one and natively refused: the
      licence is never renewed without a fresh selection. */
  lemma LicenceLastsOneStep(c: L.Config, s: State, es: seq<Event>, t: State, now: real, v: View, rid: Rid)
    requires IsRun(c, s, es, t) && s.sel.refused == {}
    requires ValidSamples(t.mixed) && t.tag != Some((v.sid, v.step))
    requires rid in Begin(c, t, now, v).sel.licensed
    ensures RefusedWhileSelected(c, s, es, rid)
  {
    RunKeepsOk(c, s, es, t);
    LicensedWereRefused(c, t, now, v);
    RefusalsComeFromSelections(c, s, es, t, rid);
  }

  lemma LicensedWereRefused(c: L.Config, t: State, now: real, v: View)
    requires ValidSamples(t.mixed) && t.tag != Some((v.sid, v.step))
    ensures Begin(c, t, now, v).sel.licensed <= t.sel.refused
  {
    var mode := BeginMode(c, v, BeginLedger(c, t.led, Swapped(t, v), Model(t), now, v).inflight);
    BeginSelectionOk(c, BeginService(t.svc, now, v), SurvivingRefusals(OwnRefusals(t, v), t.svc, v), v, mode);
  }

  /** Main theorem 4. A contended step opens with the ranking respected in full: an
      earlier-ranked candidate is passed over only on the refusal licence. */
  lemma StepOpensRanked(c: L.Config, s: State, now: real, v: View)
    requires ValidSamples(s.mixed) && s.tag != Some((v.sid, v.step)) && Begin(c, s, now, v).mode == PrefillTurn
    ensures RankedStart(Begin(c, s, now, v).sel)
  {
    BeginSelectionOk(c, BeginService(s.svc, now, v), SurvivingRefusals(OwnRefusals(s, v), s.svc, v), v, PrefillTurn);
  }
}
