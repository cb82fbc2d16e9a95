/** The fair mixed-prefill policy as the source keeps it: one object whose entry points
    update its fields in place. Each is proved against its FairPolicy transition, so
    everything proved of runs holds of the object. */
module FairScheduler {
  import opened Common
  import opened FairCost
  import L = FairLedger
  import opened FairSelection
  import P = FairPolicy
  import R = FairRuns

  type Rid = L.Rid

  class MixedPrefill {
    const cfg: L.Config
    var credit: real
    var inContention: bool
    var openRec: Option<L.OpenStep>
    var inflight: seq<L.Flight>
    var lastAccount: Option<real>
    var candidates: seq<Request>
    var selected: set<Rid>
    var tried: set<Rid>
    var passed: set<Rid>
    var refused: set<Rid>
    var refusedPrev: set<Rid>
    var deferredTiers: set<int>
    var priorityMode: bool
    var lastService: map<Rid, real>
    var arrival: map<Rid, real>
    var rrSeq: map<Rid, int>
    var rrN: int
    var incarn: map<Rid, int>
    var mixedSamples: seq<Sample>
    var soloSamples: seq<Sample>
    var stepTag: Option<(int, int)>
    var schedId: Option<int>
    var stepMode: P.StepMode
    ghost var entry: real
    ghost var charges: seq<L.Charge>
    ghost var licensed: set<Rid>

    ghost function Led(): L.Ledger
      reads this`credit, this`inContention, this`openRec, this`inflight, this`lastAccount, this`entry, this`charges
    {
      L.Ledger(credit, inContention, openRec, inflight, lastAccount, entry, charges)
    }

    ghost function Sel(): Selection
      reads this`candidates, this`selected, this`tried, this`passed, this`refused, this`refusedPrev
      reads this`deferredTiers, this`priorityMode, this`licensed
    {
      Selection(candidates, selected, tried, passed, refused, refusedPrev, deferredTiers, priorityMode, licensed)
    }

    ghost function Svc(): Service
      reads this`lastService, this`arrival, this`rrSeq, this`rrN, this`incarn
    {
      Service(lastService, arrival, rrSeq, rrN, incarn)
    }

    ghost function Abs(): P.State
      reads this
    {
      P.State(Led(), Sel(), Svc(), mixedSamples, soloSamples, stepTag, schedId, stepMode)
    }

    /** Samples and in-flight records are well formed. */
    ghost predicate Valid()
      reads this
    {
      ValidSamples(mixedSamples) && P.FlightsHavePositiveWork(inflight)
    }

    constructor (cfg: L.Config)
      requires L.ValidConfig(cfg)
      ensures this.cfg == cfg && Valid() && Abs() == P.Init()
    {
      this.cfg := cfg;
      credit, inContention, openRec, inflight, lastAccount := 0.0, false, None, [], None;
      candidates, selected, tried, passed := [], {}, {}, {};
      refused, refusedPrev, deferredTiers, priorityMode := {}, {}, {}, false;
      lastService, arrival, rrSeq, rrN, incarn := map[], map[], map[], 0, map[];
      mixedSamples, soloSamples := [], [];
      stepTag, schedId, stepMode := None, None, P.Solo;
      entry, charges, licensed := 0.0, [], {};
    }

    /** `_promote_next`. */
    method PromoteNext(preferPassed: bool)
      modifies this`selected
      ensures Sel() == FairSelection.PromoteNext(old(Sel()), P.GrantIds(L.Grants(Led())), cfg.maxChunks, preferPassed)
    {
      var grants := P.GrantIds(if openRec.Some? then openRec.value.grants else []);
      var order := if preferPassed then PassedLast(priorityMode, passed, candidates) else candidates;
      selected := PromoteLoop(order, selected, grants, tried, cfg.maxChunks);
    }

    /** Hand back the tentative grant of `rid`, if any. */
    method TakeBack(rid: Rid)
      requires openRec.Some?
      modifies this`openRec, this`credit
      ensures Led() == L.TakeBack(old(Led()), rid)
    {
      var g := L.FindGrant(openRec.value.grants, rid);
      if g.Some? {
        var borrowed := openRec.value.borrowed && !g.value.borrowed;
        openRec := Some(openRec.value.(grants := L.DropGrant(openRec.value.grants, rid), borrowed := borrowed));
        credit := credit + g.value.cost;
      }
    }

    /** A request that could not progress rotates behind its tier peers. */
    method Rotate(rid: Rid, why: P.Reason)
      modifies this`rrN, this`rrSeq
      ensures Svc() == P.ReleasedService(old(Svc()), rid, why)
    {
      if why.ZeroProgress? || why.Allocation? {
        rrN := rrN + 1;
        rrSeq := rrSeq[rid := rrN];
      }
    }

    /** Move the request to the tried ones and fill the freed place. */
    method Replace(rid: Rid, why: P.Reason)
      modifies this`selected, this`tried
      ensures Sel() == P.ReleasedSelection(cfg, old(Sel()), rid, P.GrantIds(L.Grants(Led())), why)
    {
      ghost var before := Sel();
      selected := selected - {rid};
      tried := tried + {rid};
      ghost var sel, led := Sel(), Led();
      assert sel == before.(selected := before.selected - {rid}, tried := before.tried + {rid});
      PromoteNext(why.Allocation?);
      assert Led() == led;
    }

    /** The effect of `_release` on a selected or granted request. */
    method ReleaseNow(rid: Rid, why: P.Reason)
      requires openRec.Some?
      modifies this`openRec, this`credit, this`selected, this`tried, this`rrN, this`rrSeq
      ensures Led() == L.TakeBack(old(Led()), rid)
      ensures Svc() == P.ReleasedService(old(Svc()), rid, why)
      ensures Sel() == P.ReleasedSelection(cfg, old(Sel()), rid, P.GrantIds(L.Grants(Led())), why)
    {
      ghost var sel, svc := Sel(), Svc();
      TakeBack(rid);
      ghost var led := Led();
      assert Sel() == sel && Svc() == svc;
      Rotate(rid, why);
      assert Sel() == sel && Led() == led;
      svc := Svc();
      ghost var granted := P.GrantIds(L.Grants(led));
      Replace(rid, why);
      assert Led() == led && Svc() == svc;
      assert Sel() == P.ReleasedSelection(cfg, sel, rid, granted, why);
    }

    /** `_release`. */
    method Release(rid: Rid, why: P.Reason)
      requires Valid()
      modifies this`openRec, this`credit, this`selected, this`tried, this`rrN, this`rrSeq
      ensures Valid() && Abs() == P.Release(cfg, old(Abs()), rid, why)
    {
      if openRec.Some? && (rid in selected || rid in P.GrantIds(openRec.value.grants)) {
        ReleaseNow(rid, why);
      }
    }

    method NoteScheduled(rid: Rid, tokens: int)
      requires Valid()
      modifies this
      ensures Valid() && Abs() == P.NoteScheduled(cfg, old(Abs()), rid, tokens)
    {
      if tokens <= 0 {
        Release(rid, P.ZeroProgress);
      }
    }

    method NoteAllocFailed(rid: Rid)
      requires Valid()
      modifies this
      ensures Valid() && Abs() == P.NoteAllocFailed(cfg, old(Abs()), rid)
    {
      NoteRefusal(rid);
      Release(rid, P.Allocation);
    }

    /** A native refusal of a selected or granted request is remembered. */
    method NoteRefusal(rid: Rid)
      modifies this`refused
      ensures Abs() == P.NoteRefusal(old(Abs()), rid)
    {
      if openRec.Some? && (rid in selected || rid in P.GrantIds(openRec.value.grants)) {
        refused := refused + {rid};
      }
    }

    // ----- begin_step -----

    method BeginServices(now: real, v: P.View) returns (surviving: set<Rid>)
      modifies this`lastService, this`arrival, this`rrSeq, this`incarn
      ensures Svc() == P.BeginService(old(Svc()), now, v)
      ensures surviving == P.SurvivingRefusals(refused, old(Svc()), v)
    {
      var live := P.LiveIds(v);
      var s := P.Prune(Service(lastService, arrival, rrSeq, rrN, incarn), live);
      s, surviving := AdoptLoop(s, refused * live, v.running + v.waiting);
      s := ArriveLoop(s, v.running + v.waiting, now);
      lastService, arrival, rrSeq, incarn := s.lastService, s.arrival, s.rrSeq, s.owner;
    }

    /** Refund an abandoned step, open the new one, and enter or leave contention. */
    method BeginLedger(now: real, step: int, decode: bool, prefill: bool, probe: real)
      modifies this`credit, this`inContention, this`openRec, this`entry, this`charges
      ensures Led() == L.Begin(old(Led()), step, now, cfg.mode == L.Fair, decode, prefill, probe)
    {
      if openRec.Some? {
        credit := credit + L.SumCosts(openRec.value.grants);
      }
      openRec := Some(L.OpenStep(step, now, decode, [], false));
      if !decode && !L.AnyDecodeInflight(inflight) {
        inContention, credit := false, 0.0;
      }
      if cfg.mode == L.Fair && prefill && decode && !inContention {
        credit, inContention := probe, true;
        entry, charges := probe, [];
      }
    }

    method ForgetScheduler(swapped: bool)
      modifies this`credit, this`inContention, this`openRec, this`inflight, this`lastAccount
      ensures Led() == if swapped then L.Forget(old(Led())) else old(Led())
      ensures inflight == if swapped then [] else old(inflight)
    {
      if swapped {
        credit, inContention, openRec, inflight, lastAccount := 0.0, false, None, [], None;
      }
    }

    method FreshSelection(surviving: set<Rid>, v: P.View)
      modifies this`candidates, this`selected, this`tried, this`passed, this`refused, this`refusedPrev
      modifies this`deferredTiers, this`priorityMode, this`licensed
      ensures Sel() == P.FreshSelection(Svc(), surviving, v)
    {
      var prefills := P.Prefills(v.running + v.waiting);
      var ranked := Rank(v.byPriority, Service(lastService, arrival, rrSeq, rrN, incarn), prefills);
      ResetSelection(v.byPriority, ranked, surviving * P.Ids(prefills));
    }

    method ResetSelection(byPriority: bool, ranked: seq<Request>, refusals: set<Rid>)
      modifies this`candidates, this`selected, this`tried, this`passed, this`refused, this`refusedPrev
      modifies this`deferredTiers, this`priorityMode, this`licensed
      ensures Sel() == Selection(ranked, {}, {}, {}, {}, refusals, {}, byPriority, refusals)
    {
      priorityMode, candidates := byPriority, ranked;
      tried, selected, passed, deferredTiers := {}, {}, {}, {};
      refusedPrev, refused, licensed := refusals, {}, refusals;
    }

    method BeginSelection(surviving: set<Rid>, v: P.View)
      modifies this`candidates, this`selected, this`tried, this`passed, this`refused, this`refusedPrev
      modifies this`deferredTiers, this`priorityMode, this`licensed
      ensures Sel() == P.BeginSelection(cfg, Svc(), surviving, v, stepMode)
    {
      FreshSelection(surviving, v);
      ghost var sel, svc := Sel(), Svc();
      if stepMode == P.PrefillTurn {
        SelectForTurn();
        assert Sel() == StartTurn(sel, cfg.maxChunks);
      }
      assert Svc() == svc;
    }

    method SelectForTurn()
      requires selected == {} && tried == {}
      modifies this`selected
      ensures Sel() == StartTurn(old(Sel()), cfg.maxChunks)
    {
      ghost var s := Sel();
      var first := PreselectLoop(candidates, refusedPrev, cfg.maxChunks);
      selected := PromoteLoop(candidates, first, {}, tried, cfg.maxChunks);
    }

    method OpenLedger(now: real, v: P.View, swapped: bool)
      requires ValidSamples(mixedSamples)
      modifies this`credit, this`inContention, this`openRec, this`inflight, this`lastAccount, this`entry, this`charges
      ensures Led() == P.BeginLedger(cfg, old(Led()), swapped, ModelOf(mixedSamples, soloSamples), now, v)
      ensures inflight == if swapped then [] else old(inflight)
    {
      ForgetScheduler(swapped);
      ghost var kept := Led();
      var decode, prefill := P.HasDecode(v.running), P.Prefills(v.running + v.waiting) != [];
      var probe := MinR(cfg.maxStepS, Estimate(ModelOf(mixedSamples, soloSamples), cfg.chunk));
      BeginLedger(now, v.step, decode, prefill, probe);
      assert Led() == L.Begin(kept, v.step, now, cfg.mode == L.Fair, decode, prefill, probe);
    }

    /** First part of `begin_step`. */
    method ServeStep(now: real, v: P.View)
      modifies this`lastService, this`arrival, this`rrSeq, this`incarn, this`refused
      ensures Abs() == P.ServeStep(old(Abs()), now, v)
    {
      ghost var s := Abs();
      DropForeignRefusals(v);
      assert Svc() == s.svc;
      ServeParts(now, v);
      assert Led() == s.led;
    }

    method ServeParts(now: real, v: P.View)
      modifies this`lastService, this`arrival, this`rrSeq, this`incarn, this`refused
      ensures Svc() == P.BeginService(old(Svc()), now, v)
      ensures Sel() == old(Sel()).(refused := P.SurvivingRefusals(old(refused), old(Svc()), v))
    {
      ghost var sel := Sel();
      var surviving := BeginServices(now, v);
      ghost var svc := Svc();
      assert Sel() == sel;
      KeepRefusals(surviving);
      assert Svc() == svc;
    }

    method KeepRefusals(left: set<Rid>)
      modifies this`refused
      ensures Sel() == old(Sel()).(refused := left)
    {
      refused := left;
    }

    method DropForeignRefusals(v: P.View)
      modifies this`refused
      ensures refused == P.OwnRefusals(old(Abs()), v) && Sel() == old(Sel()).(refused := refused)
    {
      if schedId.Some? && schedId.value != v.sid {
        refused := {};
      }
    }

    /** Second part of `begin_step`. */
    method SettleStep(now: real, v: P.View)
      requires Valid()
      modifies this`credit, this`inContention, this`openRec, this`inflight, this`lastAccount, this`entry, this`charges
      ensures Valid() && Abs() == P.SettleStep(cfg, old(Abs()), now, v)
    {
      SettleLedger(now, v);
    }

    method SettleLedger(now: real, v: P.View)
      requires ValidSamples(mixedSamples)
      modifies this`credit, this`inContention, this`openRec, this`inflight, this`lastAccount, this`entry, this`charges
      ensures Abs() == P.SettleStep(cfg, old(Abs()), now, v)
      ensures inflight == old(inflight) || inflight == []
    {
      ghost var s := Abs();
      OpenOwnLedger(now, v);
      assert Sel() == s.sel && Svc() == s.svc;
    }

    method OpenOwnLedger(now: real, v: P.View)
      requires ValidSamples(mixedSamples)
      modifies this`credit, this`inContention, this`openRec, this`inflight, this`lastAccount, this`entry, this`charges
      ensures Led() == P.OpenedLedger(cfg, old(Abs()), now, v)
      ensures inflight == old(inflight) || inflight == []
    {
      OpenLedger(now, v, schedId.Some? && schedId.value != v.sid);
    }

    /** Third part of `begin_step`. */
    method MarkStep(v: P.View)
      modifies this`stepTag, this`schedId, this`stepMode
      ensures Abs() == P.MarkStep(cfg, old(Abs()), v)
    {
      stepTag, schedId := Some((v.sid, v.step)), Some(v.sid);
      stepMode := P.BeginMode(cfg, v, inflight);
    }

    /** `begin_step`; the result is the reordered running queue. */
    method BeginStep(now: real, v: P.View) returns (running: seq<Request>)
      requires Valid()
      modifies this
      ensures Valid() && Abs() == P.Begin(cfg, old(Abs()), now, v)
      ensures running == if cfg.mode == L.Fair && old(stepTag) != Some((v.sid, v.step)) then P.DecodesFirst(v.running) else v.running
    {
      running := v.running;
      if stepTag == Some((v.sid, v.step)) {
        return;
      }
      ServeStep(now, v);
      SettleStep(now, v);
      MarkStep(v);
      OpenTurn(v);
      running := if cfg.mode == L.Fair then P.DecodesFirst(v.running) else v.running;
    }

    /** Last part of `begin_step`. */
    method OpenTurn(v: P.View)
      modifies this`candidates, this`selected, this`tried, this`passed, this`refused, this`refusedPrev
      modifies this`deferredTiers, this`priorityMode, this`licensed
      ensures Abs() == P.OpenTurn(cfg, old(Abs()), v)
    {
      ghost var led, svc := Led(), Svc();
      BeginSelection(refused, v);
      assert Led() == led && Svc() == svc;
    }

    // ----- cap_for -----

    method GrantNow(rid: Rid, p: Pick, borrowed: bool)
      requires openRec.Some?
      modifies this`credit, this`openRec, this`tried
      ensures Abs() == P.Grant(old(Abs()), rid, p, borrowed)
    {
      var o := openRec.value;
      credit := credit - p.cost;
      openRec := Some(o.(grants := o.grants + [L.Grant(rid, p.tokens, p.cost, borrowed)], borrowed := o.borrowed || borrowed));
      tried := tried + {rid};
    }

    method DeferNow(r: Request, why: P.Reason)
      requires Valid()
      modifies this`openRec, this`credit, this`selected, this`tried, this`rrN, this`rrSeq, this`deferredTiers
      ensures Valid() && P.Capped(Abs(), Some(0)) == P.Defer(cfg, old(Abs()), r, why)
    {
      ghost var s := Abs();
      deferredTiers := deferredTiers + {Tier(priorityMode, r)};
      assert Abs() == s.(sel := s.sel.(deferred := s.sel.deferred + {Tier(s.sel.priorityMode, r)}));
      Release(r.id, why);
    }

    /** The admission decision for a selected candidate in its turn. */
    method Decide(now: real, r: Request, remaining: nat) returns (d: P.Decision)
      requires Valid() && openRec.Some?
      ensures d == P.Decide(cfg, Abs(), now, r, remaining)
    {
      ghost var s := Abs();
      var model := ModelOf(mixedSamples, soloSamples);
      var gapRoom := MaxR(0.0, cfg.maxStepS - L.SumCosts(openRec.value.grants));
      assert model == P.Model(s) && gapRoom == P.GapRoom(cfg, s);
      var pick := Target(model, cfg.chunk, Some(remaining), gapRoom);
      if pick.None? {
        return P.Deny(P.GapBudget);
      }
      if pick.value.cost <= credit + TOL {
        return P.Allow(pick.value, false);
      }
      var tier := Tier(priorityMode, r);
      var due := r.id !in lastService || now - Get(lastService, r.id, Get(arrival, r.id, now)) >= cfg.intervalS;
      var higherDeferred := exists d :: d in deferredTiers && d < tier;
      if due && credit >= -TOL && openRec.value.grants == [] && !openRec.value.borrowed && !higherDeferred {
        return P.Allow(pick.value, true);
      }
      var lowerPresent := priorityMode && exists i :: 0 <= i < |candidates| && Tier(true, candidates[i]) > Tier(true, r);
      var alt := if lowerPresent then Target(model, cfg.chunk, Some(remaining), MinR(gapRoom, MaxR(0.0, credit))) else None;
      assert alt == P.Affordable(cfg, s, r, remaining);
      return if alt.Some? then P.Allow(alt.value, false) else P.Deny(P.Credit);
    }

    method Admit(now: real, r: Request, remaining: nat) returns (cap: Option<nat>)
      requires Valid() && openRec.Some?
      modifies this`openRec, this`credit, this`selected, this`tried, this`rrN, this`rrSeq, this`deferredTiers
      ensures Valid() && P.Capped(Abs(), cap) == P.Admit(cfg, old(Abs()), now, r, remaining)
    {
      var d := Decide(now, r, remaining);
      if d.Allow? {
        GrantNow(r.id, d.pick, d.borrowed);
        cap := Some(d.pick.tokens);
      } else {
        DeferNow(r, d.why);
        cap := Some(0);
      }
    }

    method CapInStep(now: real, v: P.View, r: Request, computed: Option<nat>) returns (cap: Option<nat>)
      requires Valid() && (cfg.mode == L.Fair ==> openRec.Some?)
      modifies this`openRec, this`credit, this`selected, this`tried, this`rrN, this`rrSeq, this`deferredTiers, this`passed
      ensures Valid() && P.Capped(Abs(), cap) == P.CapInStep(cfg, old(Abs()), now, v, r, computed)
    {
      var remaining := Remaining(r, computed);
      if remaining <= 0 || cfg.mode == L.Off { return None; }
      if cfg.mode == L.Skip { return if P.PeerDecodes(v, r) then Some(0) else None; }
      if cfg.mode.FixedCap? { return if P.PeerDecodes(v, r) then Some(cfg.mode.cap) else None; }
      if stepMode == P.Solo { return None; }
      var g := L.FindGrant(openRec.value.grants, r.id);
      if g.Some? { return Some(g.value.cap); }
      ghost var s := Abs();
      passed := passed + {r.id};
      assert Abs() == s.(sel := s.sel.(passed := s.sel.passed + {r.id}));
      if stepMode != P.PrefillTurn || r.id !in selected { return Some(0); }
      cap := Admit(now, r, remaining);
    }

    /** `cap_for`. */
    method CapFor(now: real, v: P.View, r: Request, computed: Option<nat>) returns (cap: Option<nat>)
      requires Valid() && (cfg.mode == L.Fair ==> P.Begin(cfg, Abs(), now, v).led.open.Some?)
      modifies this
      ensures Valid() && P.Capped(Abs(), cap) == P.CapFor(cfg, old(Abs()), now, v, r, computed)
    {
      var running := BeginStep(now, v);
      cap := CapInStep(now, v, r, computed);
    }

    // ----- finish_step and observe_output -----

    /** `finish_step`. */
    method FinishStep(v: P.View, key: int, scheduled: seq<L.Work>)
      requires Valid()
      modifies this`openRec, this`credit, this`inflight
      ensures Valid() && Abs() == P.Finish(cfg, old(Abs()), v, key, scheduled)
    {
      if openRec.None? { return; }
      var o := openRec.value;
      var w := P.PrefillWork(v, scheduled);
      var owners := P.Owners(Service(lastService, arrival, rrSeq, rrN, incarn), w);
      Seal(key, w, scheduled == [], owners);
    }

    /** Refund the unused part of every grant; keep the record if it was dispatched. */
    method Seal(key: int, w: seq<L.Work>, empty: bool, owners: map<Rid, int>)
      requires openRec.Some? && Valid() && forall i :: 0 <= i < |w| ==> w[i].n > 0
      modifies this`openRec, this`credit, this`inflight
      ensures Valid() && Led() == L.Seal(old(Led()), ModelOf(mixedSamples, soloSamples), key, w, empty, cfg.mode == L.Fair, owners)
    {
      var o := openRec.value;
      openRec := None;
      var refund, reserved := SealLoop(ModelOf(mixedSamples, soloSamples), o.grants, w);
      credit := credit + refund;
      if !empty && cfg.mode == L.Fair {
        inflight := inflight + [L.Flight(key, o.submitted, o.hadDecode, w, reserved, owners)];
      }
    }

    /** Settle the record at index `i`: partitioned wall time, reservation, accrual. */
    method SettleFlight(i: nat, now: real, served: bool, limit: real)
      requires Valid() && i < |inflight|
      modifies this`credit, this`inflight, this`lastAccount, this`charges
      ensures Valid() && Led() == L.Settle(old(Led()), cfg.share, limit, i, now, served)
    {
      var f := inflight[i];
      var start := if lastAccount.Some? then MaxR(f.submitted, lastAccount.value) else f.submitted;
      var dt := MaxR(0.0, now - start);
      inflight := inflight[..i] + inflight[i + 1..];
      lastAccount := Some(if lastAccount.Some? then MaxR(now, lastAccount.value) else now);
      if f.hadDecode {
        credit := MinR(credit + f.reserved + cfg.share * dt - (if served then dt else 0.0), limit);
        charges := charges + [L.Charge(dt, served)];
      }
    }

    method CreditServed(served: seq<L.Work>, owners: map<Rid, int>, now: real, live: set<Rid>)
      modifies this`lastService, this`arrival, this`rrSeq, this`rrN, this`incarn
      ensures Svc() == P.Prune(P.Credited(old(Svc()), served, owners, now), live)
    {
      var s := CreditLoop(Service(lastService, arrival, rrSeq, rrN, incarn), served, owners, now);
      s := P.Prune(s, live);
      lastService, arrival, rrSeq, rrN, incarn := s.lastService, s.arrival, s.rrSeq, s.rrN, s.owner;
    }

    method AddSamples(decode: bool, n: nat, dt: real)
      requires Valid()
      modifies this`mixedSamples, this`soloSamples
      ensures Valid()
      ensures mixedSamples == P.AddSample(old(mixedSamples), decode, n, dt, 64)
      ensures soloSamples == P.AddSample(old(soloSamples), !decode, n, dt, 32)
    {
      if n > 0 && dt > 0.0 {
        if decode {
          mixedSamples := Last(mixedSamples + [Sample(n, dt)], 64);
        } else {
          soloSamples := Last(soloSamples + [Sample(n, dt)], 32);
        }
      }
    }

    method PruneBags(live: set<Rid>)
      modifies this`refused, this`refusedPrev, this`passed
      ensures Sel() == P.PruneSelection(old(Sel()), live)
    {
      refused, refusedPrev, passed := refused * live, refusedPrev * live, passed * live;
    }

    /** `observe_output`. */
    method ObserveOutput(now: real, v: P.View, key: int, actual: map<Rid, int>)
      requires Valid()
      modifies this
      ensures Valid() && Abs() == P.Observe(cfg, old(Abs()), now, v, key, actual)
    {
      var found := L.IndexOf(inflight, key);
      if found.Some? {
        ObserveFlight(now, v, found.value, actual);
      }
    }

    method ObserveFlight(now: real, v: P.View, i: nat, actual: map<Rid, int>)
      requires Valid() && i < |inflight|
      modifies this
      ensures Valid() && Abs() == P.Settled(cfg, old(Abs()), now, v, i, actual)
    {
      var f, live := inflight[i], P.LiveIds(v);
      var served := P.Served(f.prefill, actual);
      var n, dt := L.TotalWork(served), MaxR(0.0, now - (if lastAccount.Some? then MaxR(f.submitted, lastAccount.value) else f.submitted));
      var limit := MinR(cfg.maxStepS, Estimate(ModelOf(mixedSamples, soloSamples), Max(cfg.chunk, LADDER_MAX)));
      Record(f, i, served, n, dt, limit, now, live);
    }

    /** Write the outcome of a completion back: ledger, service, samples. */
    method Record(f: L.Flight, i: nat, served: seq<L.Work>, n: nat, dt: real, limit: real, now: real, live: set<Rid>)
      requires Valid() && i < |inflight|
      modifies this
      ensures Valid()
      ensures Abs() == P.NoteSample(P.NoteService(P.PayFlight(cfg, old(Abs()), i, now, n > 0, limit), served, f.owners, now, live),
                                    f.hadDecode, n, dt, live)
    {
      PayFlight(i, now, n > 0, limit);
      NoteService(served, f.owners, now, live);
      NoteSample(f.hadDecode, n, dt, live);
    }

    method PayFlight(i: nat, now: real, served: bool, limit: real)
      requires Valid() && i < |inflight|
      modifies this`credit, this`inflight, this`lastAccount, this`charges
      ensures Valid() && Abs() == P.PayFlight(cfg, old(Abs()), i, now, served, limit)
    {
      ghost var sel, svc := Sel(), Svc();
      SettleFlight(i, now, served, limit);
      assert Sel() == sel && Svc() == svc;
    }

    method NoteService(served: seq<L.Work>, owners: map<Rid, int>, now: real, live: set<Rid>)
      modifies this`lastService, this`arrival, this`rrSeq, this`rrN, this`incarn
      ensures Abs() == P.NoteService(old(Abs()), served, owners, now, live)
    {
      ghost var led, sel := Led(), Sel();
      CreditServed(served, owners, now, live);
      assert Led() == led && Sel() == sel;
    }

    method NoteSample(decode: bool, n: nat, dt: real, live: set<Rid>)
      requires Valid()
      modifies this`mixedSamples, this`soloSamples, this`refused, this`refusedPrev, this`passed
      ensures Valid() && Abs() == P.NoteSample(old(Abs()), decode, n, dt, live)
    {
      ghost var led, sel, svc := Led(), Sel(), Svc();
      AddSamples(decode, n, dt);
      assert Sel() == sel;
      PruneBags(live);
      assert Led() == led && Svc() == svc;
    }
  }

  /** The service-credit loop of `observe_output`. */
  method CreditLoop(v: Service, served: seq<L.Work>, owners: map<Rid, int>, now: real) returns (w: Service)
    ensures w == P.Credited(v, served, owners, now)
  {
    w := v;
    var i := 0;
    while i < |served|
      invariant 0 <= i <= |served|
      invariant P.Credited(w, served[i..], owners, now) == P.Credited(v, served, owners, now)
    {
      assert served[i..][0] == served[i] && served[i..][1..] == served[i + 1..];
      var rid := served[i].rid;
      if (rid in owners) == (rid in w.owner) && (rid in owners ==> owners[rid] == w.owner[rid]) {
        w := w.(lastService := w.lastService[rid := now], rrN := w.rrN + 1, rrSeq := w.rrSeq[rid := w.rrN + 1]);
      }
      i := i + 1;
    }
  }

  /** The refund loop of `finish_step`. */
  method SealLoop(m: CostModel, grants: seq<L.Grant>, w: seq<L.Work>) returns (refund: real, reserved: real)
    requires ValidModel(m)
    ensures reserved == L.SumSealed(m, grants, w) && refund == L.SumCosts(grants) - reserved
  {
    refund, reserved := 0.0, 0.0;
    var i := 0;
    while i < |grants|
      invariant 0 <= i <= |grants|
      invariant reserved + L.SumSealed(m, grants[i..], w) == L.SumSealed(m, grants, w)
      invariant refund + reserved + L.SumCosts(grants[i..]) == L.SumCosts(grants)
    {
      assert grants[i..][0] == grants[i] && grants[i..][1..] == grants[i + 1..];
      var actual := L.Sealed(m, grants[i], w);
      refund := refund + grants[i].cost - actual;
      reserved := reserved + actual;
      i := i + 1;
    }
  }

  /** The selection loop of `_promote_next`. */
  method PromoteLoop(order: seq<Request>, start: set<Rid>, grants: set<Rid>, tried: set<Rid>, max: nat) returns (selected: set<Rid>)
    ensures selected == Promote(order, start, grants, tried, max)
  {
    selected := start;
    var i := 0;
    while i < |order| && |selected + grants| < max
      invariant 0 <= i <= |order|
      invariant Promote(order[i..], selected, grants, tried, max) == Promote(order, start, grants, tried, max)
    {
      assert order[i..][0] == order[i] && order[i..][1..] == order[i + 1..];
      if order[i].id !in tried {
        selected := selected + {order[i].id};
      }
      i := i + 1;
    }
  }

  /** The refusal-licensed preselection loop of `begin_step`. */
  method PreselectLoop(candidates: seq<Request>, refusedPrev: set<Rid>, max: nat) returns (selected: set<Rid>)
    ensures selected == Preselect(candidates, {}, refusedPrev, max)
  {
    selected := {};
    var i := 0;
    while i < |candidates| && |selected| < max
      invariant 0 <= i <= |candidates|
      invariant Preselect(candidates[i..], selected, refusedPrev, max) == Preselect(candidates, {}, refusedPrev, max)
    {
      assert candidates[i..][0] == candidates[i] && candidates[i..][1..] == candidates[i + 1..];
      if candidates[i].id !in refusedPrev {
        selected := selected + {candidates[i].id};
      }
      i := i + 1;
    }
  }

  /** `_track_incarnations`: forget the history of ids bound to a new object. */
  method AdoptLoop(v: Service, refused: set<Rid>, rs: seq<Request>) returns (w: Service, left: set<Rid>)
    ensures w.rrN == v.rrN && w == P.AdoptAll(v, rs) && left == refused - P.Rebound(v, rs)
  {
    w, left := v, refused;
    var i := 0;
    while i < |rs|
      invariant 0 <= i <= |rs|
      invariant w.rrN == v.rrN && P.AdoptAll(w, rs[i..]) == P.AdoptAll(v, rs)
      invariant left - P.Rebound(w, rs[i..]) == refused - P.Rebound(v, rs)
    {
      var r := rs[i];
      assert rs[i..][0] == r && rs[i..][1..] == rs[i + 1..];
      if r.id in w.owner && w.owner[r.id] != r.obj {
        left := left - {r.id};
      }
      w := P.Adopt(w, r);
      i := i + 1;
    }
  }

  /** `arrival.setdefault` for every request seen this step. */
  method ArriveLoop(v: Service, rs: seq<Request>, now: real) returns (w: Service)
    ensures w.rrN == v.rrN && w == P.ArriveAll(v, rs, now)
  {
    w := v;
    var i := 0;
    while i < |rs|
      invariant 0 <= i <= |rs|
      invariant w.rrN == v.rrN && P.ArriveAll(w, rs[i..], now) == P.ArriveAll(v, rs, now)
    {
      assert rs[i..][0] == rs[i] && rs[i..][1..] == rs[i + 1..];
      if rs[i].id !in w.arrival {
        w := w.(arrival := w.arrival[rs[i].id := now]);
      }
      i := i + 1;
    }
  }
}
