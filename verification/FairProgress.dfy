/** Progress of the fair mixed-prefill policy: how an overdrawn credit is repaid, and that
    the first due candidate is granted once it is. */
module FairProgress {
  import opened Common
  import opened FairCost
  import L = FairLedger
  import I = FairInvariant
  import opened FairSelection
  import opened FairPolicy
  import opened FairRuns

  // ----- repaying a debt -----

  /** No grant is open, and no dispatched step serves prompt tokens beside decodes. */
  ghost predicate Quiet(l: L.Ledger) {
    L.Grants(l) == [] && forall f :: f in l.inflight ==> !L.Mixed(f)
  }

  predicate InDebt(s: State) { s.led.credit < -TOL }

  /** Accounted seconds of the decode-carrying step that the event completes, if any. */
  function DecodeBy(s: State, e: Event): real {
    if e.ObserveOutput? && L.IndexOf(s.led.inflight, e.key).Some? then
      var f := s.led.inflight[L.IndexOf(s.led.inflight, e.key).value];
      if f.hadDecode then L.Elapsed(s.led, f, e.now) else 0.0
    else 0.0
  }

  /** The part of some seconds that goes to prefill. */
  function Portion(share: real, seconds: real): real { share * seconds }

  lemma NoPortion(share: real)
    ensures Portion(share, 0.0) == 0.0
  {
  }

  lemma PortionAdds(share: real, a: real, b: real)
    ensures Portion(share, a + b) == Portion(share, a) + Portion(share, b)
  {
  }

  function Earned(c: L.Config, s: State, e: Event): real { Portion(c.share, DecodeBy(s, e)) }

  /** The same of every event of a run. */
  ghost function DecodeTimes(c: L.Config, s: State, es: seq<Event>): seq<real>
    requires StateOk(c, s)
    decreases |es|
  {
    if es == [] || !Legal(c, s, es[0]) then []
    else [DecodeBy(s, es[0])] + DecodeTimes(c, Step(c, s, es[0]), es[1..])
  }

  function Total(ts: seq<real>): real { if ts == [] then 0.0 else ts[0] + Total(ts[1..]) }

  function TotalPortion(share: real, ts: seq<real>): real {
    if ts == [] then 0.0 else Portion(share, ts[0]) + TotalPortion(share, ts[1..])
  }

  lemma {:induction false} PortionOfTotal(share: real, ts: seq<real>)
    ensures TotalPortion(share, ts) == Portion(share, Total(ts))
  {
    if ts == [] {
      NoPortion(share);
    } else {
      PortionOfTotal(share, ts[1..]);
      PortionAdds(share, ts[0], Total(ts[1..]));
    }
  }

  /** Accounted seconds of the decode-carrying steps that a run completes. */
  ghost function DecodeSeconds(c: L.Config, s: State, es: seq<Event>): real
    requires StateOk(c, s)
  {
    Total(DecodeTimes(c, s, es))
  }

  lemma BeginInDebt(c: L.Config, s: State, now: real, v: View)
    requires StateOk(c, s) && Quiet(s.led)
    ensures var b := Begin(c, s, now, v); Quiet(b.led) && (b.led.credit == s.led.credit || b.led.credit >= 0.0)
  {
    if s.tag != Some((v.sid, v.step)) {
      var from := if Swapped(s, v) then L.Forget(s.led) else s.led;
      var probe := MinR(c.maxStepS, Estimate(Model(s), c.chunk));
      EstimateMonotone(Model(s), c.chunk, c.chunk);
      OpenInDebt(from, v.step, now, c.mode == L.Fair, HasDecode(v.running), Prefills(v.running + v.waiting) != [], probe);
    }
  }

  lemma OpenInDebt(l: L.Ledger, step: int, now: real, fair: bool, hasDecode: bool, hasPrefill: bool, probe: real)
    requires Quiet(l) && probe >= 0.0
    ensures var b := L.Begin(l, step, now, fair, hasDecode, hasPrefill, probe); Quiet(b) && (b.credit == l.credit || b.credit >= 0.0)
  {
  }

  /** In debt nothing fits: a candidate is deferred whatever it asks for. */
  lemma DenyInDebt(c: L.Config, s: State, now: real, r: Request, remaining: nat)
    requires ValidSamples(s.mixed) && s.led.open.Some? && InDebt(s)
    ensures Decide(c, s, now, r, remaining).Deny?
  {
    DecideBounds(c, s, now, r, remaining);
  }

  lemma CapInDebt(c: L.Config, s: State, now: real, v: View, r: Request, computed: Option<nat>)
    requires ValidSamples(s.mixed) && (c.mode == L.Fair ==> s.led.open.Some?) && InDebt(s) && L.Grants(s.led) == []
    ensures CapInStep(c, s, now, v, r, computed).state.led == s.led
  {
    if c.mode == L.Fair {
      var s1 := s.(sel := s.sel.(passed := s.sel.passed + {r.id}));
      DenyInDebt(c, s1, now, r, Remaining(r, computed));
    }
  }

  /** Without grants a decode-carrying step takes no prompt tokens along. */
  lemma FinishInDebt(c: L.Config, s: State, v: View, key: int, scheduled: seq<L.Work>)
    requires StateOk(c, s) && HonoursCaps(c, s, v, scheduled) && Quiet(s.led)
    ensures var l := Finish(c, s, v, key, scheduled).led; Quiet(l) && l.credit == s.led.credit
  {
    if s.led.open.Some? {
      var w := PrefillWork(v, scheduled);
      if w != [] {
        assert w[0] in w;
      }
    }
  }

  /** A completed decode-only step earns its share, up to the limit. */
  lemma ObserveInDebt(c: L.Config, s: State, now: real, v: View, key: int, actual: map<Rid, int>)
    requires StateOk(c, s) && Quiet(s.led)
    ensures var t := Observe(c, s, now, v, key, actual);
            Quiet(t.led) && (t.led.credit == s.led.credit + Earned(c, s, ObserveOutput(now, v, key, actual)) || t.led.credit >= 0.0)
  {
    match L.IndexOf(s.led.inflight, key)
    case None => NoPortion(c.share);
    case Some(i) =>
      var f := s.led.inflight[i];
      assert f in s.led.inflight && !L.Mixed(f);
      EstimateMonotone(Model(s), Max(c.chunk, LADDER_MAX), Max(c.chunk, LADDER_MAX));
      assert f.hadDecode ==> f.reserved == 0.0 && Served(f.prefill, actual) == [];
      SettleInDebt(s.led, c.share, CreditLimit(c, s), i, now, L.TotalWork(Served(f.prefill, actual)) > 0);
  }

  lemma SettleInDebt(l: L.Ledger, share: real, limit: real, i: nat, now: real, served: bool)
    requires Quiet(l) && i < |l.inflight| && limit >= 0.0 && (l.inflight[i].hadDecode ==> l.inflight[i].reserved == 0.0 && !served)
    ensures var t := L.Settle(l, share, limit, i, now, served);
            var dt := if l.inflight[i].hadDecode then L.Elapsed(l, l.inflight[i], now) else 0.0;
            Quiet(t) && (t.credit == l.credit + Portion(share, dt) || t.credit >= 0.0)
  {
    NoPortion(share);
    SettledQuiet(l, share, limit, i, now, served);
  }

  lemma SettledQuiet(l: L.Ledger, share: real, limit: real, i: nat, now: real, served: bool)
    requires Quiet(l) && i < |l.inflight|
    ensures Quiet(L.Settle(l, share, limit, i, now, served))
  {
    var l2 := L.Settle(l, share, limit, i, now, served);
    forall f | f in l2.inflight ensures !L.Mixed(f) { assert f in l.inflight; }
  }

  /** A cap opens a step, and opening it ends the debt. */
  predicate OpensRepaid(c: L.Config, s: State, e: Event)
    requires ValidSamples(s.mixed)
  {
    e.Cap? && !InDebt(Begin(c, s, e.now, e.view))
  }

  /** In debt an event earns the share of the decode time that it completes, or ends the
      debt. */
  lemma StepInDebt(c: L.Config, s: State, e: Event)
    requires StateOk(c, s) && Legal(c, s, e) && Quiet(s.led) && InDebt(s)
    ensures var s2 := Step(c, s, e);
            OpensRepaid(c, s, e) || (Quiet(s2.led) && (!InDebt(s2) || s2.led.credit == s.led.credit + Earned(c, s, e)))
  {
    assert !e.ObserveOutput? ==> Earned(c, s, e) == 0.0 by { NoPortion(c.share); }
    match e
    case BeginStep(now, v) => BeginInDebt(c, s, now, v);
    case Cap(now, v, r, computed) => CapStepInDebt(c, s, now, v, r, computed);
    case Scheduled(rid, n) =>
    case AllocFailed(rid) => RefusedInDebt(c, s, rid);
    case FinishStep(v, key, work) => FinishInDebt(c, s, v, key, work);
    case ObserveOutput(now, v, key, actual) => ObserveInDebt(c, s, now, v, key, actual);
  }

  lemma RefusedInDebt(c: L.Config, s: State, rid: Rid)
    requires L.Grants(s.led) == []
    ensures NoteAllocFailed(c, s, rid).led == s.led
  {
  }

  lemma CapStepInDebt(c: L.Config, s: State, now: real, v: View, r: Request, computed: Option<nat>)
    requires StateOk(c, s) && Quiet(s.led) && InDebt(s) && (c.mode == L.Fair ==> Begin(c, s, now, v).led.open.Some?)
    ensures var b := Begin(c, s, now, v); var t := CapFor(c, s, now, v, r, computed).state;
            !InDebt(b) || (Quiet(t.led) && t.led.credit == s.led.credit)
  {
    BeginKeeps(c, s, now, v);
    BeginInDebt(c, s, now, v);
    if InDebt(Begin(c, s, now, v)) {
      CapInDebt(c, Begin(c, s, now, v), now, v, r, computed);
    }
  }

  /** `pre` is a first part of `es`; a cap that opens a step may count as the opening. */
  predicate Within(pre: seq<Event>, es: seq<Event>) {
    pre <= es
    || exists k :: 0 <= k < |es| && es[k].Cap? && pre == es[..k] + [BeginStep(es[k].now, es[k].view)]
  }

  lemma WithinCons(e: Event, pre: seq<Event>, es: seq<Event>)
    requires Within(pre, es)
    ensures Within([e] + pre, [e] + es)
  {
    if !(pre <= es) {
      var k :| 0 <= k < |es| && es[k].Cap? && pre == es[..k] + [BeginStep(es[k].now, es[k].view)];
      assert ([e] + es)[k + 1] == es[k] && ([e] + es)[..k + 1] == [e] + es[..k];
      assert [e] + pre == ([e] + es)[..k + 1] + [BeginStep(es[k].now, es[k].view)];
    }
  }

  lemma RunCons(c: L.Config, s: State, e: Event, pre: seq<Event>, u: State)
    requires StateOk(c, s) && Legal(c, s, e) && IsRun(c, Step(c, s, e), pre, u)
    ensures IsRun(c, s, [e] + pre, u)
  {
    assert ([e] + pre)[1..] == pre;
  }

  /** What the decode time of a run earns. */
  ghost function EarnedOver(c: L.Config, s: State, es: seq<Event>): real
    requires StateOk(c, s)
  {
    TotalPortion(c.share, DecodeTimes(c, s, es))
  }

  lemma EarnedUnfolds(c: L.Config, s: State, es: seq<Event>)
    requires StateOk(c, s) && es != [] && Legal(c, s, es[0])
    ensures EarnedOver(c, s, es) == Earned(c, s, es[0]) + EarnedOver(c, Step(c, s, es[0]), es[1..])
  {
    var rest := DecodeTimes(c, Step(c, s, es[0]), es[1..]);
    assert ([DecodeBy(s, es[0])] + rest)[1..] == rest;
  }

  /** A debt that the run earns is repaid when a step opens, or after the first event, or
      the rest of the run earns what is still owed. */
  lemma DebtShrinks(c: L.Config, s: State, es: seq<Event>)
    requires StateOk(c, s) && Quiet(s.led) && InDebt(s) && EarnedOver(c, s, es) >= -TOL - s.led.credit
    requires es != [] ==> Legal(c, s, es[0])
    ensures es != []
    ensures OpensRepaid(c, s, es[0]) || (var s2 := Step(c, s, es[0]); Quiet(s2.led) && (!InDebt(s2) || EarnedOver(c, s2, es[1..]) >= -TOL - s2.led.credit))
  {
    StepInDebt(c, s, es[0]);
    EarnedUnfolds(c, s, es);
  }

  /** Main theorem: decode-only work repays a debt. Once the share of the decode time that
      a run completes covers the debt, the run has passed a state where it is repaid, with
      nothing granted or served in between. */
  lemma DebtIsRepaid(c: L.Config, s: State, es: seq<Event>, t: State) returns (pre: seq<Event>, u: State)
    requires IsRun(c, s, es, t) && Quiet(s.led) && Portion(c.share, DecodeSeconds(c, s, es)) >= -TOL - s.led.credit
    ensures Within(pre, es) && IsRun(c, s, pre, u) && Quiet(u.led) && !InDebt(u)
  {
    PortionOfTotal(c.share, DecodeTimes(c, s, es));
    pre, u := EarningRepays(c, s, es, t);
  }

  lemma {:induction false} EarningRepays(c: L.Config, s: State, es: seq<Event>, t: State) returns (pre: seq<Event>, u: State)
    requires IsRun(c, s, es, t) && Quiet(s.led) && EarnedOver(c, s, es) >= -TOL - s.led.credit
    ensures Within(pre, es) && IsRun(c, s, pre, u) && Quiet(u.led) && !InDebt(u)
    decreases |es|
  {
    if !InDebt(s) {
      return [], s;
    }
    DebtShrinks(c, s, es);
    if OpensRepaid(c, s, es[0]) {
      pre, u := OpenedRepaid(c, s, es);
      return;
    }
    var s2 := Step(c, s, es[0]);
    if !InDebt(s2) {
      pre, u := [], s2;
    } else {
      pre, u := EarningRepays(c, s2, es[1..], t);
    }
    pre := OneMore(c, s, es, pre, u);
  }

  lemma OneMore(c: L.Config, s: State, es: seq<Event>, rest: seq<Event>, u: State) returns (pre: seq<Event>)
    requires StateOk(c, s) && es != [] && Legal(c, s, es[0]) && IsRun(c, Step(c, s, es[0]), rest, u) && Within(rest, es[1..])
    ensures IsRun(c, s, pre, u) && Within(pre, es)
  {
    pre := [es[0]] + rest;
    RunCons(c, s, es[0], rest, u);
    WithinCons(es[0], rest, es[1..]);
    assert es == [es[0]] + es[1..];
  }

  lemma OpenedRepaid(c: L.Config, s: State, es: seq<Event>) returns (pre: seq<Event>, u: State)
    requires StateOk(c, s) && Quiet(s.led) && es != [] && es[0].Cap? && !InDebt(Begin(c, s, es[0].now, es[0].view))
    ensures Within(pre, es) && IsRun(c, s, pre, u) && Quiet(u.led) && !InDebt(u)
  {
    var b := BeginStep(es[0].now, es[0].view);
    u := Step(c, s, b);
    pre := [b] + [];
    BeginInDebt(c, s, es[0].now, es[0].view);
    RunCons(c, s, b, [], u);
    assert es[..0] == [] && pre == es[..0] + [b];
  }

  /** However badly a step was estimated, its overrun is the whole debt: outside of grants
      and mixed steps the credit is at most the last mixed step below the tolerance. */
  lemma DebtIsLastMixedStep(c: L.Config, s: State)
    requires StateOk(c, s) && s.led.inContention && Quiet(s.led)
    ensures s.led.credit >= -TOL - L.LastMixed(s.led.charges)
  {
    forall i | 0 <= i < |s.led.inflight| ensures s.led.inflight[i].reserved == 0.0 {
      assert s.led.inflight[i] in s.led.inflight;
    }
    L.SumReservedZero(s.led.inflight);
  }

  // ----- the first due candidate -----

  /** A prefill turn opens with `r` ranked first, not refused just before, due, and some
      rung of its prompt within the step limit. */
  ghost predicate TurnFor(c: L.Config, s: State, now: real, v: View, r: Request, computed: Option<nat>)
    requires ValidSamples(s.mixed)
  {
    var t := Begin(c, s, now, v);
    && s.tag != Some((v.sid, v.step)) && t.mode == PrefillTurn
    && t.sel.candidates != [] && t.sel.candidates[0].id == r.id && r.id !in t.sel.licensed
    && (r.id !in t.svc.lastService || Age(t, now, r.id) >= c.intervalS)
    && Remaining(r, computed) >= 1
    && exists n :: n in Rungs(Model(s), c.chunk, Some(Remaining(r, computed))) && Estimate(Model(s), n) <= c.maxStepS + TOL
  }

  lemma FirstIsSelected(s: Selection, max: nat)
    requires s.candidates != [] && s.candidates[0].id !in s.refusedPrev && max >= 1
    requires UniqueIds(s.candidates)
    ensures s.candidates[0].id in StartTurn(s, max).selected
  {
    var c := s.candidates;
    assert |{c[0].id}| == 1;
    PreselectGrows(c[1..], {c[0].id}, s.refusedPrev, max);
    assert Preselect(c, {}, s.refusedPrev, max) == Preselect(c[1..], {} + {c[0].id}, s.refusedPrev, max);
    assert {} + {c[0].id} == {c[0].id};
    PromoteGrows(c, Preselect(c, {}, s.refusedPrev, max), {}, s.tried, max);
  }

  lemma {:induction false} PreselectGrows(cands: seq<Request>, selected: set<Rid>, refusedPrev: set<Rid>, max: nat)
    ensures selected <= Preselect(cands, selected, refusedPrev, max)
    decreases |cands|
  {
    if cands != [] && |selected| < max {
      PreselectGrows(cands[1..], if cands[0].id in refusedPrev then selected else selected + {cands[0].id}, refusedPrev, max);
    }
  }

  lemma {:induction false} PromoteGrows(cands: seq<Request>, selected: set<Rid>, granted: set<Rid>, tried: set<Rid>, max: nat)
    ensures selected <= Promote(cands, selected, granted, tried, max)
    decreases |cands|
  {
    if cands != [] {
      PromoteGrows(cands[1..], if cands[0].id in tried then selected else selected + {cands[0].id}, granted, tried, max);
    }
  }

  /** The opened turn: nothing granted, borrowed or deferred yet, `r` selected. */
  lemma TurnOpens(c: L.Config, s: State, now: real, v: View, r: Request, computed: Option<nat>)
    requires StateOk(c, s) && TurnFor(c, s, now, v, r, computed)
    ensures var t := Begin(c, s, now, v);
            && c.mode == L.Fair && t.led.open.Some? && L.Grants(t.led) == [] && !t.led.open.value.borrowed
            && t.sel.deferred == {} && r.id in t.sel.selected && t.mixed == s.mixed && t.solo == s.solo
  {
    BeginLedgerKeeps(c, s.led, Swapped(s, v), Model(s), now, v);
    var svc := BeginService(s.svc, now, v);
    var start := FreshSelection(svc, SurvivingRefusals(OwnRefusals(s, v), s.svc, v), v);
    var prefills := Prefills(v.running + v.waiting);
    RankingByTier(v.byPriority, svc, {}, prefills);
    UniqueUnderPermutation(prefills, Rank(v.byPriority, svc, prefills));
    FirstIsSelected(start, c.maxChunks);
  }

  /** Opening a step keeps a repaid credit repaid. */
  lemma OpensWithoutDebt(c: L.Config, s: State, now: real, v: View)
    requires StateOk(c, s) && s.led.credit + L.SumCosts(L.Grants(s.led)) >= -TOL && s.tag != Some((v.sid, v.step))
    ensures Begin(c, s, now, v).led.credit >= -TOL
  {
    var from := if Swapped(s, v) then L.Forget(s.led) else s.led;
    EstimateMonotone(Model(s), c.chunk, c.chunk);
    OpenedCredit(from, v.step, now, c.mode == L.Fair, HasDecode(v.running), Prefills(v.running + v.waiting) != [],
                 MinR(c.maxStepS, Estimate(Model(s), c.chunk)));
  }

  lemma OpenedCredit(l: L.Ledger, step: int, now: real, fair: bool, hasDecode: bool, hasPrefill: bool, probe: real)
    requires l.credit + L.SumCosts(L.Grants(l)) >= -TOL && probe >= 0.0
    ensures L.Begin(l, step, now, fair, hasDecode, hasPrefill, probe).credit >= -TOL
  {
  }

  /** An allowed candidate leaves with its grant. */
  lemma AllowedIsGranted(c: L.Config, s: State, now: real, v: View, r: Request, computed: Option<nat>)
    requires ValidSamples(s.mixed) && c.mode == L.Fair && s.mode == PrefillTurn && s.led.open.Some? && L.Grants(s.led) == []
    requires r.id in s.sel.selected && Remaining(r, computed) >= 1
    requires var d := Decide(c, Passed(s, r.id), now, r, Remaining(r, computed)); d.Allow? && 1 <= d.pick.tokens <= Remaining(r, computed)
    ensures IsGranted(CapInStep(c, s, now, v, r, computed), r.id, Remaining(r, computed))
  {
    var d := Decide(c, Passed(s, r.id), now, r, Remaining(r, computed));
    var g := L.Grant(r.id, d.pick.tokens, d.pick.cost, d.borrowed);
    assert L.Grants(s.led) + [g] == [g];
    assert CapInStep(c, s, now, v, r, computed) == Admit(c, Passed(s, r.id), now, r, Remaining(r, computed));
  }

  function Passed(s: State, rid: Rid): State { s.(sel := s.sel.(passed := s.sel.passed + {rid})) }

  /** The answer is a positive chunk within the prompt, and it is on the books. */
  predicate IsGranted(a: Capped, rid: Rid, remaining: nat) {
    && a.cap.Some? && 1 <= a.cap.value <= remaining
    && L.FindGrant(L.Grants(a.state.led), rid).Some? && L.FindGrant(L.Grants(a.state.led), rid).value.cap == a.cap.value
  }

  /** Main theorem: with no debt, the first candidate of a fresh turn is granted a chunk
      when it is due and any rung fits the step limit, however little credit there is. */
  lemma FirstDueIsGranted(c: L.Config, s: State, now: real, v: View, r: Request, computed: Option<nat>)
    requires StateOk(c, s) && TurnFor(c, s, now, v, r, computed) && s.led.credit + L.SumCosts(L.Grants(s.led)) >= -TOL
    ensures Begin(c, s, now, v).led.open.Some? && IsGranted(CapFor(c, s, now, v, r, computed), r.id, Remaining(r, computed))
  {
    TurnOpens(c, s, now, v, r, computed);
    OpensWithoutDebt(c, s, now, v);
    var t := Begin(c, s, now, v);
    var n :| n in Rungs(Model(s), c.chunk, Some(Remaining(r, computed))) && Estimate(Model(s), n) <= c.maxStepS + TOL;
    assert Model(Passed(t, r.id)) == Model(s);
    DueIsAllowed(c, Passed(t, r.id), now, r, Remaining(r, computed), n);
    AllowedIsGranted(c, t, now, v, r, computed);
  }

  lemma DueIsAllowed(c: L.Config, s: State, now: real, r: Request, remaining: nat, n: nat)
    requires L.ValidConfig(c) && ValidSamples(s.mixed) && s.led.open.Some? && L.Grants(s.led) == [] && !s.led.open.value.borrowed && s.sel.deferred == {}
    requires s.led.credit >= -TOL && remaining >= 1 && (r.id !in s.svc.lastService || Age(s, now, r.id) >= c.intervalS)
    requires n in Rungs(Model(s), c.chunk, Some(remaining)) && Estimate(Model(s), n) <= c.maxStepS + TOL
    ensures var d := Decide(c, s, now, r, remaining); d.Allow? && 1 <= d.pick.tokens <= remaining
  {
    TargetIsMostEfficient(Model(s), c.chunk, Some(remaining), GapRoom(c, s), n);
    assert MayBorrow(c, s, now, r);
  }

  /** Main theorem: after a mixed step of `d` accounted seconds, whatever it was estimated
      at, `d / share` seconds of completed decode steps pass through a state from which the
      first due candidate of the next turn is granted. */
  lemma MixedStepIsPaidFor(c: L.Config, s: State, es: seq<Event>, t: State, now: real, v: View, r: Request, computed: Option<nat>)
    returns (pre: seq<Event>, u: State)
    requires IsRun(c, s, es, t) && s.led.inContention && Quiet(s.led)
    requires Portion(c.share, DecodeSeconds(c, s, es)) >= L.LastMixed(s.led.charges)
    ensures Within(pre, es) && IsRun(c, s, pre, u) && StateOk(c, u) && Quiet(u.led) && u.led.credit >= -TOL
    ensures TurnFor(c, u, now, v, r, computed) ==>
              Begin(c, u, now, v).led.open.Some? && IsGranted(CapFor(c, u, now, v, r, computed), r.id, Remaining(r, computed))
  {
    DebtIsLastMixedStep(c, s);
    pre, u := DebtIsRepaid(c, s, es, t);
    RunKeepsOk(c, s, pre, u);
    if TurnFor(c, u, now, v, r, computed) {
      FirstDueIsGranted(c, u, now, v, r, computed);
    }
  }
}
