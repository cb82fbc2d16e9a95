/** The fair mixed-prefill policy as a state machine: one transition per entry point
    of the source class, over the ledger, the selection and the service history. */
module FairPolicy {
  import Arith
  import opened Common
  import opened FairCost
  import L = FairLedger
  import opened FairSelection

  type Rid = L.Rid

  datatype StepMode = Solo | Legacy | DecodeOnly | PrefillTurn

  /** The scheduler as a step sees it; `known` is its request table. */
  datatype View = View(sid: int, step: int, running: seq<Request>, waiting: seq<Request>, known: map<Rid, Request>, byPriority: bool)

  datatype State = State(
    led: L.Ledger, sel: Selection, svc: Service, mixed: seq<Sample>, solo: seq<Sample>,
    tag: Option<(int, int)>, sched: Option<int>, mode: StepMode)

  function Init(): State {
    State(L.Ledger(0.0, false, None, [], None, 0.0, []), Selection([], {}, {}, {}, {}, {}, {}, false, {}),
          Service(map[], map[], map[], 0, map[]), [], [], None, None, Solo)
  }

  function Ids(rs: seq<Request>): set<Rid> { set i | 0 <= i < |rs| :: rs[i].id }

  function LiveIds(v: View): set<Rid> { Ids(v.running) + Ids(v.waiting) + v.known.Keys }

  function Keep<T>(m: map<Rid, T>, live: set<Rid>): map<Rid, T> { map k | k in m && k in live :: m[k] }

  function Prune(v: Service, live: set<Rid>): Service {
    v.(lastService := Keep(v.lastService, live), arrival := Keep(v.arrival, live),
       rrSeq := Keep(v.rrSeq, live), owner := Keep(v.owner, live))
  }

  /** The requests still needing prefill, one per id; a later duplicate wins. */
  function Prefills(rs: seq<Request>): (p: seq<Request>)
    ensures UniqueIds(p)
  {
    if rs == [] then []
    else
      var rest := Prefills(rs[1..]);
      if NeedsPrefill(rs[0]) && rs[0].id !in Ids(rest) then [rs[0]] + rest else rest
  }

  lemma {:induction false} PrefillsComplete(rs: seq<Request>)
    ensures forall x :: x in Ids(Prefills(rs)) <==> exists i :: 0 <= i < |rs| && rs[i].id == x && NeedsPrefill(rs[i])
  {
    if rs != [] {
      var h, t := rs[0], rs[1..];
      PrefillsComplete(t);
      IdsCons(h, Prefills(t));
      forall x ensures x in Ids(Prefills(rs)) <==> exists i :: 0 <= i < |rs| && rs[i].id == x && NeedsPrefill(rs[i]) {
        if x in Ids(Prefills(t)) {
          var i :| 0 <= i < |t| && t[i].id == x && NeedsPrefill(t[i]);
          assert rs[i + 1].id == x && NeedsPrefill(rs[i + 1]);
        } else if i :| 0 <= i < |rs| && rs[i].id == x && NeedsPrefill(rs[i]) {
          if i > 0 { assert t[i - 1].id == x && NeedsPrefill(t[i - 1]); }
        }
      }
    }
  }

  lemma IdsCons(h: Request, t: seq<Request>)
    ensures Ids([h] + t) == {h.id} + Ids(t)
  {
    var s := [h] + t;
    assert s[0] == h;
    assert forall i :: 0 <= i < |t| ==> s[i + 1] == t[i];
  }

  predicate HasDecode(running: seq<Request>) { exists i :: 0 <= i < |running| && !NeedsPrefill(running[i]) }

  /** The base loop runs decodes first; order within each group is kept. */
  function DecodesFirst(running: seq<Request>): seq<Request> { Filter(running, false) + Filter(running, true) }

  function Filter(rs: seq<Request>, prefill: bool): seq<Request> {
    if rs == [] then []
    else (if NeedsPrefill(rs[0]) == prefill then [rs[0]] else []) + Filter(rs[1..], prefill)
  }

  /** A request id re-bound to another object inherits no service history. */
  function Adopt(v: Service, r: Request): Service {
    var rebound := r.id in v.owner && v.owner[r.id] != r.obj;
    var w := if rebound then v.(lastService := v.lastService - {r.id}, arrival := v.arrival - {r.id}, rrSeq := v.rrSeq - {r.id}) else v;
    w.(owner := w.owner[r.id := r.obj])
  }

  function AdoptAll(v: Service, rs: seq<Request>): Service
    decreases |rs|
  {
    if rs == [] then v else AdoptAll(Adopt(v, rs[0]), rs[1..])
  }

  /** Ids whose owner changes while the requests are adopted in order. */
  function Rebound(v: Service, rs: seq<Request>): set<Rid>
    decreases |rs|
  {
    if rs == [] then {}
    else (if rs[0].id in v.owner && v.owner[rs[0].id] != rs[0].obj then {rs[0].id} else {}) + Rebound(Adopt(v, rs[0]), rs[1..])
  }

  function ArriveAll(v: Service, rs: seq<Request>, now: real): Service
    decreases |rs|
  {
    if rs == [] then v
    else ArriveAll(if rs[0].id in v.arrival then v else v.(arrival := v.arrival[rs[0].id := now]), rs[1..], now)
  }

  function Model(s: State): CostModel
    requires ValidSamples(s.mixed)
  {
    ModelOf(s.mixed, s.solo)
  }

  function GrantIds(g: seq<L.Grant>): set<Rid> { set i | 0 <= i < |g| :: g[i].rid }

  function Granted(s: State): set<Rid> { GrantIds(L.Grants(s.led)) }

  /** The refusals of the previous step that still matter: live, same object. */
  function SurvivingRefusals(refused: set<Rid>, svc: Service, v: View): set<Rid> {
    refused * LiveIds(v) - Rebound(Prune(svc, LiveIds(v)), v.running + v.waiting)
  }

  function BeginService(svc: Service, now: real, v: View): Service {
    ArriveAll(AdoptAll(Prune(svc, LiveIds(v)), v.running + v.waiting), v.running + v.waiting, now)
  }

  function BeginLedger(c: L.Config, led: L.Ledger, swapped: bool, m: CostModel, now: real, v: View): L.Ledger
    requires ValidModel(m)
  {
    L.Begin(if swapped then L.Forget(led) else led, v.step, now, c.mode == L.Fair, HasDecode(v.running),
            Prefills(v.running + v.waiting) != [], MinR(c.maxStepS, Estimate(m, c.chunk)))
  }

  function BeginMode(c: L.Config, v: View, inflight: seq<L.Flight>): StepMode {
    if c.mode != L.Fair then Legacy
    else if Prefills(v.running + v.waiting) == [] || !HasDecode(v.running) then Solo
    else if L.PrefillInflight(inflight) then DecodeOnly else PrefillTurn
  }

  /** A step starts from the ranked candidates and the refusal licences of the last. */
  function FreshSelection(svc: Service, surviving: set<Rid>, v: View): Selection {
    var prefills := Prefills(v.running + v.waiting);
    var refusedPrev := surviving * Ids(prefills);
    Selection(Rank(v.byPriority, svc, prefills), {}, {}, {}, {}, refusedPrev, {}, v.byPriority, refusedPrev)
  }

  function BeginSelection(c: L.Config, svc: Service, surviving: set<Rid>, v: View, mode: StepMode): Selection {
    if mode == PrefillTurn then StartTurn(FreshSelection(svc, surviving, v), c.maxChunks) else FreshSelection(svc, surviving, v)
  }

  predicate Swapped(s: State, v: View) { s.sched.Some? && s.sched.value != v.sid }

  /** Refusals on record when the step opens; another scheduler's are dropped. */
  function OwnRefusals(s: State, v: View): set<Rid> { if Swapped(s, v) then {} else s.sel.refused }

  /** First part of `begin_step`: prune and adopt; `refused` keeps the refusals that
      survive. */
  function ServeStep(s: State, now: real, v: View): State {
    s.(svc := BeginService(s.svc, now, v), sel := s.sel.(refused := SurvivingRefusals(OwnRefusals(s, v), s.svc, v)))
  }

  function OpenedLedger(c: L.Config, s: State, now: real, v: View): L.Ledger
    requires ValidSamples(s.mixed)
  {
    BeginLedger(c, s.led, Swapped(s, v), Model(s), now, v)
  }

  /** Second part: refund, forget a swapped scheduler, enter or leave contention. */
  function SettleStep(c: L.Config, s: State, now: real, v: View): State
    requires ValidSamples(s.mixed)
  {
    s.(led := OpenedLedger(c, s, now, v))
  }

  /** Third part: note the step and name its mode. */
  function MarkStep(c: L.Config, s: State, v: View): State {
    s.(tag := Some((v.sid, v.step)), sched := Some(v.sid), mode := BeginMode(c, v, s.led.inflight))
  }

  /** Last part: rank the candidates and select for the turn. */
  function OpenTurn(c: L.Config, s: State, v: View): State {
    s.(sel := BeginSelection(c, s.svc, s.sel.refused, v, s.mode))
  }

  /** `begin_step`: idempotent within a step. */
  function Begin(c: L.Config, s: State, now: real, v: View): State
    requires ValidSamples(s.mixed)
  {
    if s.tag == Some((v.sid, v.step)) then s else OpenTurn(c, MarkStep(c, SettleStep(c, ServeStep(s, now, v), now, v), v), v)
  }

  datatype Reason = Credit | GapBudget | ZeroProgress | Allocation

  function ReleasedService(v: Service, rid: Rid, why: Reason): Service {
    if why.ZeroProgress? || why.Allocation? then v.(rrN := v.rrN + 1, rrSeq := v.rrSeq[rid := v.rrN + 1]) else v
  }

  function ReleasedSelection(c: L.Config, s: Selection, rid: Rid, granted: set<Rid>, why: Reason): Selection {
    PromoteNext(s.(selected := s.selected - {rid}, tried := s.tried + {rid}), granted, c.maxChunks, why.Allocation?)
  }

  /** `_release`: hand back a selected or granted request and promote the next. */
  function Release(c: L.Config, s: State, rid: Rid, why: Reason): State {
    if s.led.open.None? || (rid !in s.sel.selected && rid !in Granted(s)) then s
    else
      var led := L.TakeBack(s.led, rid);
      s.(led := led, svc := ReleasedService(s.svc, rid, why),
         sel := ReleasedSelection(c, s.sel, rid, GrantIds(L.Grants(led)), why))
  }

  function NoteScheduled(c: L.Config, s: State, rid: Rid, tokens: int): State {
    if tokens <= 0 then Release(c, s, rid, ZeroProgress) else s
  }

  function NoteRefusal(s: State, rid: Rid): State {
    if s.led.open.Some? && (rid in s.sel.selected || rid in Granted(s))
    then s.(sel := s.sel.(refused := s.sel.refused + {rid})) else s
  }

  function NoteAllocFailed(c: L.Config, s: State, rid: Rid): State { Release(c, NoteRefusal(s, rid), rid, Allocation) }

  datatype Capped = Capped(state: State, cap: Option<nat>)

  /** Seconds since the request's last completed service, or since its arrival. */
  function Age(s: State, now: real, rid: Rid): real {
    now - Get(s.svc.lastService, rid, Get(s.svc.arrival, rid, now))
  }

  function Grant(s: State, rid: Rid, p: Pick, borrowed: bool): State
    requires s.led.open.Some?
  {
    s.(led := L.Give(s.led, L.Grant(rid, p.tokens, p.cost, borrowed)), sel := s.sel.(tried := s.sel.tried + {rid}))
  }

  function Defer(c: L.Config, s: State, r: Request, why: Reason): Capped {
    var s1 := s.(sel := s.sel.(deferred := s.sel.deferred + {Tier(s.sel.priorityMode, r)}));
    Capped(Release(c, s1, r.id, why), Some(0))
  }

  function GapRoom(c: L.Config, s: State): real { MaxR(0.0, c.maxStepS - L.SumCosts(L.Grants(s.led))) }

  /** May this request overdraw the shared credit by one chunk? */
  predicate MayBorrow(c: L.Config, s: State, now: real, r: Request)
    requires s.led.open.Some?
  {
    && (r.id !in s.svc.lastService || Age(s, now, r.id) >= c.intervalS)
    && s.led.credit >= -TOL
    && s.led.open.value.grants == [] && !s.led.open.value.borrowed
    && !exists d :: d in s.sel.deferred && d < Tier(s.sel.priorityMode, r)
  }

  /** The rung a request may afford outright when a strictly lower tier is present. */
  function Affordable(c: L.Config, s: State, r: Request, remaining: nat): Option<Pick>
    requires ValidSamples(s.mixed)
  {
    var lowerPresent := s.sel.priorityMode &&
                        exists i :: 0 <= i < |s.sel.candidates| && Tier(true, s.sel.candidates[i]) > Tier(true, r);
    if lowerPresent then Target(Model(s), c.chunk, Some(remaining), MinR(GapRoom(c, s), MaxR(0.0, s.led.credit))) else None
  }

  datatype Decision = Allow(pick: Pick, borrowed: bool) | Deny(why: Reason)

  /** The admission decision of `cap_for` for a selected candidate in its turn. */
  function Decide(c: L.Config, s: State, now: real, r: Request, remaining: nat): Decision
    requires ValidSamples(s.mixed) && s.led.open.Some?
  {
    match Target(Model(s), c.chunk, Some(remaining), GapRoom(c, s))
    case None => Deny(GapBudget)
    case Some(pick) =>
      if pick.cost <= s.led.credit + TOL then Allow(pick, false)
      else if MayBorrow(c, s, now, r) then Allow(pick, true)
      else match Affordable(c, s, r, remaining)
           case Some(alt) => Allow(alt, false)
           case None => Deny(Credit)
  }

  function Admit(c: L.Config, s: State, now: real, r: Request, remaining: nat): Capped
    requires ValidSamples(s.mixed) && s.led.open.Some?
  {
    match Decide(c, s, now, r, remaining)
    case Allow(pick, borrowed) => Capped(Grant(s, r.id, pick, borrowed), Some(pick.tokens))
    case Deny(why) => Defer(c, s, r, why)
  }

  predicate PeerDecodes(v: View, r: Request) {
    exists i :: 0 <= i < |v.running| && v.running[i].obj != r.obj && !NeedsPrefill(v.running[i])
  }

  /** `cap_for` once the step is open. */
  function CapInStep(c: L.Config, s: State, now: real, v: View, r: Request, computed: Option<nat>): Capped
    requires ValidSamples(s.mixed)
    requires c.mode == L.Fair ==> s.led.open.Some?
  {
    var remaining := Remaining(r, computed);
    if remaining <= 0 || c.mode == L.Off then Capped(s, None)
    else if c.mode == L.Skip then Capped(s, if PeerDecodes(v, r) then Some(0) else None)
    else if c.mode.FixedCap? then Capped(s, if PeerDecodes(v, r) then Some(c.mode.cap) else None)
    else if s.mode == Solo then Capped(s, None)
    else
      match L.FindGrant(L.Grants(s.led), r.id)
      case Some(g) => Capped(s, Some(g.cap))
      case None =>
        var s1 := s.(sel := s.sel.(passed := s.sel.passed + {r.id}));
        if s1.mode != PrefillTurn || r.id !in s1.sel.selected then Capped(s1, Some(0))
        else Admit(c, s1, now, r, remaining)
  }

  /** `cap_for`: the number of prompt tokens the request may be scheduled this step,
      or None for no limit. In fair mode the caller must be between `begin_step` and
      `finish_step`. */
  function CapFor(c: L.Config, s: State, now: real, v: View, r: Request, computed: Option<nat>): Capped
    requires ValidSamples(s.mixed)
    requires c.mode == L.Fair ==> Begin(c, s, now, v).led.open.Some?
  {
    CapInStep(c, Begin(c, s, now, v), now, v, r, computed)
  }

  /** Prompt tokens among the scheduled ones, for requests the scheduler knows. */
  function PrefillWork(v: View, scheduled: seq<L.Work>): (w: seq<L.Work>)
    ensures forall i :: 0 <= i < |w| ==> w[i].n > 0
    ensures scheduled == [] ==> w == []
  {
    if scheduled == [] then []
    else
      var h := scheduled[0];
      var n := if h.rid in v.known then Min(h.n, Remaining(v.known[h.rid], None)) else 0;
      (if n > 0 then [L.Work(h.rid, n)] else []) + PrefillWork(v, scheduled[1..])
  }

  function Owners(v: Service, w: seq<L.Work>): map<Rid, int> {
    map i | 0 <= i < |w| && w[i].rid in v.owner :: w[i].rid := v.owner[w[i].rid]
  }

  /** `finish_step` with the final positive token counts of the schedule. */
  function Finish(c: L.Config, s: State, v: View, key: int, scheduled: seq<L.Work>): State
    requires ValidSamples(s.mixed)
  {
    if s.led.open.None? then s
    else
      var w := PrefillWork(v, scheduled);
      s.(led := L.Seal(s.led, Model(s), key, w, scheduled == [], c.mode == L.Fair, Owners(s.svc, w)))
  }

  /** The part of a step's prompt work that the completed output really served. */
  function Served(w: seq<L.Work>, actual: map<Rid, int>): (r: seq<L.Work>)
    requires forall i :: 0 <= i < |w| ==> w[i].n > 0
    ensures forall i :: 0 <= i < |r| ==> r[i].n > 0
    ensures w == [] ==> r == []
  {
    if w == [] then []
    else
      var n := Get(actual, w[0].rid, 0);
      (if n > 0 then [L.Work(w[0].rid, Min(w[0].n, n))] else []) + Served(w[1..], actual)
  }

  /** Service credit for the served requests whose id still names the same object. */
  function Credited(v: Service, served: seq<L.Work>, owners: map<Rid, int>, now: real): Service
    decreases |served|
  {
    if served == [] then v
    else
      var rid := served[0].rid;
      var same := (rid in owners) == (rid in v.owner) && (rid in owners ==> owners[rid] == v.owner[rid]);
      var w := if same
               then v.(lastService := v.lastService[rid := now], rrN := v.rrN + 1, rrSeq := v.rrSeq[rid := v.rrN + 1])
               else v;
      Credited(w, served[1..], owners, now)
  }

  function CreditLimit(c: L.Config, s: State): real
    requires ValidSamples(s.mixed)
  {
    MinR(c.maxStepS, Estimate(Model(s), Max(c.chunk, LADDER_MAX)))
  }

  predicate FlightsHavePositiveWork(f: seq<L.Flight>) {
    forall i, j :: 0 <= i < |f| && 0 <= j < |f[i].prefill| ==> f[i].prefill[j].n > 0
  }

  /** The three bags `_prune` intersects with the live requests. */
  function PruneSelection(s: Selection, live: set<Rid>): Selection {
    s.(refused := s.refused * live, refusedPrev := s.refusedPrev * live, passed := s.passed * live)
  }

  function AddSample(s: seq<Sample>, when: bool, n: nat, dt: real, k: nat): seq<Sample> {
    if when && n > 0 && dt > 0.0 then Last(s + [Sample(n, dt)], k) else s
  }

  function PayFlight(c: L.Config, s: State, i: nat, now: real, served: bool, limit: real): State
    requires i < |s.led.inflight|
  {
    s.(led := L.Settle(s.led, c.share, limit, i, now, served))
  }

  function NoteService(s: State, served: seq<L.Work>, owners: map<Rid, int>, now: real, live: set<Rid>): State {
    s.(svc := Prune(Credited(s.svc, served, owners, now), live))
  }

  function NoteSample(s: State, decode: bool, n: nat, dt: real, live: set<Rid>): State {
    s.(sel := PruneSelection(s.sel, live), mixed := AddSample(s.mixed, decode, n, dt, 64), solo := AddSample(s.solo, !decode, n, dt, 32))
  }

  /** The effect of observing the in-flight record at index `i`. */
  function Settled(c: L.Config, s: State, now: real, v: View, i: nat, actual: map<Rid, int>): State
    requires ValidSamples(s.mixed) && FlightsHavePositiveWork(s.led.inflight) && i < |s.led.inflight|
  {
    var f := s.led.inflight[i];
    var served := Served(f.prefill, actual);
    var n, dt := L.TotalWork(served), L.Elapsed(s.led, f, now);
    NoteSample(NoteService(PayFlight(c, s, i, now, n > 0, CreditLimit(c, s)), served, f.owners, now, LiveIds(v)),
               f.hadDecode, n, dt, LiveIds(v))
  }

  /** `observe_output`: settle the step behind `key`; unknown or repeated outputs are
      ignored. */
  function Observe(c: L.Config, s: State, now: real, v: View, key: int, actual: map<Rid, int>): State
    requires ValidSamples(s.mixed) && FlightsHavePositiveWork(s.led.inflight)
  {
    match L.IndexOf(s.led.inflight, key)
    case None => s
    case Some(i) => Settled(c, s, now, v, i, actual)
  }

  /** `aligned_new_tokens`: clip a chunk to the block grid unless that would stall a
      chunk that is capped below one block. */
  function AlignedNewTokens(start: nat, numNew: nat, prefillEnd: nat, block: nat, maxTokens: nat, policyCap: Option<nat>): nat
    requires block > 0
  {
    var limit := if policyCap.Some? && policyCap.value > 0 then Min(maxTokens, policyCap.value) else maxTokens;
    var end := start + numNew;
    var aligned := end / block * block;
    var stop := if end < prefillEnd && (aligned > start || block <= limit) then aligned else end;
    Max(0, stop - start)
  }

  /** The clip never grows a chunk, ends a shortened one on the grid, and stalls a
      positive chunk exactly when a whole block was allowed but none is completed; a
      grant below one block always progresses. */
  lemma AlignedChunkProgress(start: nat, numNew: nat, prefillEnd: nat, block: nat, maxTokens: nat, policyCap: Option<nat>)
    requires block > 0
    ensures var n := AlignedNewTokens(start, numNew, prefillEnd, block, maxTokens, policyCap);
            var limit := if policyCap.Some? && policyCap.value > 0 then Min(maxTokens, policyCap.value) else maxTokens;
            && n <= numNew
            && (n == numNew || n == 0 || (start + n) % block == 0)
            && (n == 0 <==> numNew == 0 || (start + numNew < prefillEnd && (start + numNew) / block * block <= start && block <= limit))
            && (numNew > 0 && policyCap.Some? && 0 < policyCap.value < block ==> n > 0)
  {
    var end := start + numNew;
    Arith.DivMulBounds(end, block);
    Arith.MulMod(end / block, block);
  }
}
