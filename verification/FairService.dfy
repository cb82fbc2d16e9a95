/** Round-robin service of the fair mixed-prefill policy: who is ranked ahead of whom,
    over every run, and what a turn costs the request that took it. */
module FairService {
  import opened Common
  import opened FairCost
  import L = FairLedger
  import opened FairSelection
  import opened FairPolicy
  import opened FairRuns

  // ----- service histories -----

  /** Time of the last completed service and turn number, if any. */
  datatype History = History(last: Option<real>, turn: Option<int>)

  function HistoryOf(v: Service, r: Rid): History {
    History(if r in v.lastService then Some(v.lastService[r]) else None, if r in v.rrSeq then Some(v.rrSeq[r]) else None)
  }

  const NOTHING := History(None, None)

  function LastOf(v: Service, r: Rid): real { Get(v.lastService, r, 0.0) }

  function TurnOf(v: Service, r: Rid): int { Get(v.rrSeq, r, 0) }

  /** `a` was served earlier than `b`, or equally late but has waited through more turns. */
  predicate Ahead(v: Service, a: Rid, b: Rid) {
    LastOf(v, a) < LastOf(v, b) || (LastOf(v, a) == LastOf(v, b) && TurnOf(v, a) < TurnOf(v, b))
  }

  /** No service lies in the future and no turn number has been handed out twice. */
  ghost predicate ServiceOk(v: Service, clock: real) {
    && clock >= 0.0 && v.rrN >= 0
    && (forall r :: r in v.lastService ==> 0.0 <= v.lastService[r] <= clock)
    && (forall r :: r in v.rrSeq ==> 0 < v.rrSeq[r] <= v.rrN)
  }

  /** The history is as it was, or the request is forgotten altogether. */
  predicate KeptOrGone(v: Service, w: Service, r: Rid) {
    HistoryOf(w, r) == HistoryOf(v, r) || HistoryOf(w, r) == NOTHING
  }

  lemma PruneHistory(v: Service, live: set<Rid>, r: Rid)
    ensures KeptOrGone(v, Prune(v, live), r)
  {
  }

  lemma {:induction false} AdoptHistory(v: Service, rs: seq<Request>, r: Rid)
    ensures KeptOrGone(v, AdoptAll(v, rs), r) && AdoptAll(v, rs).rrN == v.rrN
    decreases |rs|
  {
    if rs != [] {
      AdoptHistory(Adopt(v, rs[0]), rs[1..], r);
    }
  }

  lemma {:induction false} ArriveHistory(v: Service, rs: seq<Request>, now: real, r: Rid)
    ensures HistoryOf(ArriveAll(v, rs, now), r) == HistoryOf(v, r) && ArriveAll(v, rs, now).rrN == v.rrN
    decreases |rs|
  {
    if rs != [] {
      var w := if rs[0].id in v.arrival then v else v.(arrival := v.arrival[rs[0].id := now]);
      ArriveHistory(w, rs[1..], now, r);
    }
  }

  lemma BeginHistory(v: Service, now: real, view: View, r: Rid)
    ensures KeptOrGone(v, BeginService(v, now, view), r) && BeginService(v, now, view).rrN == v.rrN
  {
    var live, rs := LiveIds(view), view.running + view.waiting;
    PruneHistory(v, live, r);
    AdoptHistory(Prune(v, live), rs, r);
    ArriveHistory(AdoptAll(Prune(v, live), rs), rs, now, r);
  }

  lemma ForgettingKeepsOk(v: Service, w: Service, clock: real, later: real)
    requires ServiceOk(v, clock) && clock <= later && w.rrN == v.rrN && forall r :: KeptOrGone(v, w, r)
    ensures ServiceOk(w, later)
  {
    forall r | r in w.lastService ensures 0.0 <= w.lastService[r] <= later { assert KeptOrGone(v, w, r); }
    forall r | r in w.rrSeq ensures 0 < w.rrSeq[r] <= w.rrN { assert KeptOrGone(v, w, r); }
  }

  /** Forgetting the one ahead, or nobody, keeps the order. */
  lemma ForgettingKeepsAhead(v: Service, w: Service, clock: real, a: Rid, b: Rid)
    requires ServiceOk(v, clock) && Ahead(v, a, b) && KeptOrGone(v, w, a) && HistoryOf(w, b) == HistoryOf(v, b)
    ensures Ahead(w, a, b)
  {
  }

  // ----- taking a turn -----

  /** Does the completion credit `r`: served in the step, and still the same object? */
  predicate Earns(v: Service, served: seq<L.Work>, owners: map<Rid, int>, r: Rid) {
    && (exists i :: 0 <= i < |served| && served[i].rid == r)
    && (r in owners) == (r in v.owner) && (r in owners ==> owners[r] == v.owner[r])
  }

  /** A completion credits exactly the requests that earn it: they end with the time of
      the completion and a fresh turn number, all others as they were. */
  lemma {:induction false} CreditedExactly(v: Service, served: seq<L.Work>, owners: map<Rid, int>, now: real, r: Rid)
    ensures var w := Credited(v, served, owners, now);
            && w.rrN >= v.rrN
            && (if Earns(v, served, owners, r)
                then HistoryOf(w, r).last == Some(now) && HistoryOf(w, r).turn.Some? && v.rrN < HistoryOf(w, r).turn.value <= w.rrN
                else HistoryOf(w, r) == HistoryOf(v, r))
    decreases |served|
  {
    if served != [] {
      var rid := served[0].rid;
      var same := (rid in owners) == (rid in v.owner) && (rid in owners ==> owners[rid] == v.owner[rid]);
      var w := if same
               then v.(lastService := v.lastService[rid := now], rrN := v.rrN + 1, rrSeq := v.rrSeq[rid := v.rrN + 1])
               else v;
      CreditedExactly(w, served[1..], owners, now, r);
      EarnsTail(v, w, served, owners, r);
    }
  }

  lemma EarnsTail(v: Service, w: Service, served: seq<L.Work>, owners: map<Rid, int>, r: Rid)
    requires served != [] && w.owner == v.owner
    ensures Earns(v, served, owners, r) <==>
              Earns(w, served[1..], owners, r) || (served[0].rid == r && (r in owners) == (r in v.owner) && (r in owners ==> owners[r] == v.owner[r]))
  {
    if i :| 0 <= i < |served| && served[i].rid == r {
      if i > 0 { assert served[1..][i - 1].rid == r; }
    }
  }

  lemma CreditKeepsOk(v: Service, served: seq<L.Work>, owners: map<Rid, int>, clock: real, now: real)
    requires ServiceOk(v, clock) && clock <= now
    ensures ServiceOk(Credited(v, served, owners, now), now)
  {
    var w := Credited(v, served, owners, now);
    CreditedExactly(v, served, owners, now, 0);
    forall r | r in w.lastService ensures 0.0 <= w.lastService[r] <= now {
      CreditedExactly(v, served, owners, now, r);
      assert HistoryOf(w, r).last == Some(w.lastService[r]);
    }
    forall r | r in w.rrSeq ensures 0 < w.rrSeq[r] <= w.rrN {
      CreditedExactly(v, served, owners, now, r);
      assert HistoryOf(w, r).turn == Some(w.rrSeq[r]);
    }
  }

  /** Is the request selected or granted in the open step? */
  predicate Holds(s: State, r: Rid) { s.led.open.Some? && (r in s.sel.selected || r in Granted(s)) }

  /** Service histories after an event. */
  function ServiceAfter(s: State, e: Event): Service
    requires FlightsHavePositiveWork(s.led.inflight)
  {
    match e
    case BeginStep(now, v) => if s.tag == Some((v.sid, v.step)) then s.svc else BeginService(s.svc, now, v)
    case Cap(now, v, _, _) => if s.tag == Some((v.sid, v.step)) then s.svc else BeginService(s.svc, now, v)
    case Scheduled(r, n) => if n <= 0 && Holds(s, r) then ReleasedService(s.svc, r, ZeroProgress) else s.svc
    case AllocFailed(r) => if Holds(s, r) then ReleasedService(s.svc, r, Allocation) else s.svc
    case FinishStep(_, _, _) => s.svc
    case ObserveOutput(now, v, key, actual) =>
      match L.IndexOf(s.led.inflight, key)
      case None => s.svc
      case Some(i) =>
        var f := s.led.inflight[i];
        Prune(Credited(s.svc, Served(f.prefill, actual), f.owners, now), LiveIds(v))
  }

  lemma StepService(c: L.Config, s: State, e: Event)
    requires StateOk(c, s) && Legal(c, s, e)
    ensures Step(c, s, e).svc == ServiceAfter(s, e)
  {
    match e
    case Cap(now, v, r, computed) => CapService(c, Begin(c, s, now, v), now, v, r, computed);
    case _ =>
  }

  lemma CapService(c: L.Config, s: State, now: real, v: View, r: Request, computed: Option<nat>)
    requires ValidSamples(s.mixed) && (c.mode == L.Fair ==> s.led.open.Some?)
    ensures CapInStep(c, s, now, v, r, computed).state.svc == s.svc
  {
    if c.mode == L.Fair {
      AdmitService(c, s.(sel := s.sel.(passed := s.sel.passed + {r.id})), now, r, Remaining(r, computed));
    }
  }

  lemma AdmitService(c: L.Config, s: State, now: real, r: Request, remaining: nat)
    requires ValidSamples(s.mixed) && s.led.open.Some?
    ensures Admit(c, s, now, r, remaining).state.svc == s.svc
  {
    match Decide(c, s, now, r, remaining)
    case Allow(_, _) =>
    case Deny(why) => assert why == Credit || why == GapBudget;
  }

  /** The event is a turn of `r`: a completion credits it, or it was selected and then
      made no progress or was refused natively. */
  predicate Turn(s: State, e: Event, r: Rid)
    requires FlightsHavePositiveWork(s.led.inflight)
  {
    match e
    case Scheduled(x, n) => n <= 0 && x == r && Holds(s, r)
    case AllocFailed(x) => x == r && Holds(s, r)
    case ObserveOutput(_, _, key, actual) =>
      L.IndexOf(s.led.inflight, key).Some? &&
      var f := s.led.inflight[L.IndexOf(s.led.inflight, key).value];
      Earns(s.svc, Served(f.prefill, actual), f.owners, r)
    case _ => false
  }

  /** The event drops the history of `r`: it left, or its id was bound to a new object. */
  predicate Forgets(s: State, e: Event, r: Rid)
    requires FlightsHavePositiveWork(s.led.inflight)
  {
    HistoryOf(s.svc, r) != NOTHING && HistoryOf(ServiceAfter(s, e), r) == NOTHING
  }

  /** The clock after an event that may read it. */
  function Tick(clock: real, e: Event): real {
    match e
    case BeginStep(now, _) => now
    case Cap(now, _, _, _) => now
    case ObserveOutput(now, _, _, _) => now
    case _ => clock
  }

  predicate Ticks(clock: real, es: seq<Event>)
    decreases |es|
  {
    es == [] || (clock <= Tick(clock, es[0]) && Ticks(Tick(clock, es[0]), es[1..]))
  }

  lemma StepServiceOk(s: State, e: Event, clock: real)
    requires FlightsHavePositiveWork(s.led.inflight) && ServiceOk(s.svc, clock) && clock <= Tick(clock, e)
    ensures ServiceOk(ServiceAfter(s, e), Tick(clock, e))
  {
    match e
    case BeginStep(now, v) => OpenKeepsOk(s.svc, now, v, clock);
    case Cap(now, v, _, _) => OpenKeepsOk(s.svc, now, v, clock);
    case ObserveOutput(now, v, key, actual) =>
      if L.IndexOf(s.led.inflight, key).Some? {
        var f := s.led.inflight[L.IndexOf(s.led.inflight, key).value];
        var w := Credited(s.svc, Served(f.prefill, actual), f.owners, now);
        CreditKeepsOk(s.svc, Served(f.prefill, actual), f.owners, clock, now);
        forall r ensures KeptOrGone(w, Prune(w, LiveIds(v)), r) { PruneHistory(w, LiveIds(v), r); }
        ForgettingKeepsOk(w, Prune(w, LiveIds(v)), now, now);
      }
    case _ =>
  }

  lemma OpenKeepsOk(v: Service, now: real, view: View, clock: real)
    requires ServiceOk(v, clock) && clock <= now
    ensures ServiceOk(BeginService(v, now, view), now)
  {
    forall r ensures KeptOrGone(v, BeginService(v, now, view), r) { BeginHistory(v, now, view, r); }
    BeginHistory(v, now, view, 0);
    ForgettingKeepsOk(v, BeginService(v, now, view), clock, now);
  }

  // ----- order over runs -----

  /** Without a turn of `a`, and while `b` is remembered, `a` stays ahead of `b`. */
  lemma StepKeepsAhead(s: State, e: Event, clock: real, a: Rid, b: Rid)
    requires FlightsHavePositiveWork(s.led.inflight) && ServiceOk(s.svc, clock) && clock <= Tick(clock, e)
    requires Ahead(s.svc, a, b) && !Turn(s, e, a) && !Forgets(s, e, b)
    ensures Ahead(ServiceAfter(s, e), a, b)
  {
    match e
    case BeginStep(now, v) => OpenKeepsAhead(s.svc, now, v, clock, a, b);
    case Cap(now, v, _, _) => OpenKeepsAhead(s.svc, now, v, clock, a, b);
    case ObserveOutput(now, v, key, actual) =>
      if L.IndexOf(s.led.inflight, key).Some? {
        var f := s.led.inflight[L.IndexOf(s.led.inflight, key).value];
        CompletionKeepsAhead(s.svc, Served(f.prefill, actual), f.owners, clock, now, LiveIds(v), a, b);
      }
    case _ =>
  }

  lemma OpenKeepsAhead(v: Service, now: real, view: View, clock: real, a: Rid, b: Rid)
    requires ServiceOk(v, clock) && Ahead(v, a, b)
    ensures Ahead(BeginService(v, now, view), a, b) || (HistoryOf(v, b) != NOTHING && HistoryOf(BeginService(v, now, view), b) == NOTHING)
  {
    BeginHistory(v, now, view, a);
    BeginHistory(v, now, view, b);
    if HistoryOf(BeginService(v, now, view), b) == HistoryOf(v, b) {
      ForgettingKeepsAhead(v, BeginService(v, now, view), clock, a, b);
    }
  }

  lemma CompletionKeepsAhead(v: Service, served: seq<L.Work>, owners: map<Rid, int>, clock: real, now: real, live: set<Rid>, a: Rid, b: Rid)
    requires ServiceOk(v, clock) && clock <= now && Ahead(v, a, b) && !Earns(v, served, owners, a)
    requires !(HistoryOf(v, b) != NOTHING && HistoryOf(Prune(Credited(v, served, owners, now), live), b) == NOTHING)
    ensures Ahead(Prune(Credited(v, served, owners, now), live), a, b)
  {
    var w := Credited(v, served, owners, now);
    CreditedExactly(v, served, owners, now, a);
    CreditedExactly(v, served, owners, now, b);
    assert Ahead(w, a, b);
    CreditKeepsOk(v, served, owners, clock, now);
    PruneHistory(w, live, a);
    PruneHistory(w, live, b);
    assert HistoryOf(v, b) != NOTHING;
    ForgettingKeepsAhead(w, Prune(w, live), now, a, b);
  }

  /** Somewhere in the run `a` takes a turn or `b` is forgotten. */
  ghost predicate Disturbed(c: L.Config, s: State, es: seq<Event>, a: Rid, b: Rid)
    requires StateOk(c, s)
    decreases |es|
  {
    es != [] && Legal(c, s, es[0]) && (Turn(s, es[0], a) || Forgets(s, es[0], b) || Disturbed(c, Step(c, s, es[0]), es[1..], a, b))
  }

  lemma InitialServiceOk(clock: real)
    requires clock >= 0.0
    ensures ServiceOk(Init().svc, clock)
  {
  }

  /** Main theorem 7. In every run on a monotone clock, a request that is ahead of another
      stays ahead until it takes a turn itself or the other is forgotten. */
  lemma {:induction false} OvertakingNeedsATurn(c: L.Config, s: State, es: seq<Event>, t: State, clock: real, a: Rid, b: Rid)
    requires IsRun(c, s, es, t) && ServiceOk(s.svc, clock) && Ticks(clock, es) && Ahead(s.svc, a, b)
    ensures Ahead(t.svc, a, b) || Disturbed(c, s, es, a, b)
    decreases |es|
  {
    if es != [] {
      StepService(c, s, es[0]);
      StepServiceOk(s, es[0], clock);
      if !Turn(s, es[0], a) && !Forgets(s, es[0], b) {
        StepKeepsAhead(s, es[0], clock, a, b);
        OvertakingNeedsATurn(c, Step(c, s, es[0]), es[1..], t, Tick(clock, es[0]), a, b);
      }
    }
  }

  /** The clock after a run. */
  function ClockAfter(clock: real, es: seq<Event>): real
    decreases |es|
  {
    if es == [] then clock else ClockAfter(Tick(clock, es[0]), es[1..])
  }

  /** Service histories stay well formed in every run on a monotone clock. */
  lemma {:induction false} RunServiceOk(c: L.Config, s: State, es: seq<Event>, t: State, clock: real)
    requires IsRun(c, s, es, t) && ServiceOk(s.svc, clock) && Ticks(clock, es)
    ensures ServiceOk(t.svc, ClockAfter(clock, es))
    decreases |es|
  {
    if es != [] {
      StepService(c, s, es[0]);
      StepServiceOk(s, es[0], clock);
      RunServiceOk(c, Step(c, s, es[0]), es[1..], t, Tick(clock, es[0]));
    }
  }

  /** A turn puts the request behind every other one that did not take a turn: after a
      completed service behind all of them, after a turn without progress behind those
      not served more recently. */
  lemma TurnGoesBehind(s: State, e: Event, clock: real, a: Rid, b: Rid)
    requires FlightsHavePositiveWork(s.led.inflight) && ServiceOk(s.svc, clock) && clock <= Tick(clock, e)
    requires a != b && Turn(s, e, b) && !Turn(s, e, a) && HistoryOf(ServiceAfter(s, e), b) != NOTHING
    requires e.ObserveOutput? || LastOf(s.svc, a) <= LastOf(s.svc, b)
    ensures Ahead(ServiceAfter(s, e), a, b)
  {
    if e.ObserveOutput? {
      var f := s.led.inflight[L.IndexOf(s.led.inflight, e.key).value];
      var served := Served(f.prefill, e.actual);
      var w := Credited(s.svc, served, f.owners, e.now);
      CreditedExactly(s.svc, served, f.owners, e.now, a);
      CreditedExactly(s.svc, served, f.owners, e.now, b);
      CreditKeepsOk(s.svc, served, f.owners, clock, e.now);
      assert Ahead(w, a, b);
      PruneHistory(w, LiveIds(e.view), a);
      PruneHistory(w, LiveIds(e.view), b);
      ForgettingKeepsAhead(w, Prune(w, LiveIds(e.view)), e.now, a, b);
    }
  }

  // ----- what the order buys -----

  lemma AheadRanksFirst(mode: bool, v: Service, s: seq<Request>, i: nat, j: nat)
    requires i < |Rank(mode, v, s)| && j < |Rank(mode, v, s)|
    requires var r := Rank(mode, v, s); Tier(mode, r[i]) == Tier(mode, r[j]) && Ahead(v, r[i].id, r[j].id)
    ensures i < j
  {
    RankLeTotal(mode, v);
    SortSorted((a: Request, b: Request) => RankLe(mode, v, a, b), s);
  }

  /** A prefill turn never opens with a candidate selected past a tier peer that is ahead
      of it, unless that peer was natively refused in the step before. */
  lemma TurnsFollowTheOrder(c: L.Config, s: State, now: real, v: View, i: nat, j: nat)
    requires ValidSamples(s.mixed) && s.tag != Some((v.sid, v.step)) && Begin(c, s, now, v).mode == PrefillTurn
    requires var t := Begin(c, s, now, v);
             && i < |t.sel.candidates| && j < |t.sel.candidates|
             && Tier(t.sel.priorityMode, t.sel.candidates[i]) == Tier(t.sel.priorityMode, t.sel.candidates[j])
             && Ahead(t.svc, t.sel.candidates[i].id, t.sel.candidates[j].id)
             && t.sel.candidates[j].id in t.sel.selected
    ensures var t := Begin(c, s, now, v); t.sel.candidates[i].id in t.sel.selected || t.sel.candidates[i].id in t.sel.licensed
  {
    StepOpensRanked(c, s, now, v);
    AheadRanksFirst(v.byPriority, BeginService(s.svc, now, v), Prefills(v.running + v.waiting), i, j);
  }

  /** `b` takes a turn in the event, `a` does not and was served no later, and `b` is
      remembered. */
  ghost predicate TakesTurn(c: L.Config, s: State, e: Event, a: Rid, b: Rid)
    requires StateOk(c, s) && Legal(c, s, e)
  {
    && a != b && Turn(s, e, b) && !Turn(s, e, a) && (e.ObserveOutput? || LastOf(s.svc, a) <= LastOf(s.svc, b))
    && HistoryOf(Step(c, s, e).svc, b) != NOTHING
  }

  /** The prefill turn that opens in `t` selects its `j`-th candidate `b`, and the `i`-th,
      `a`, is a tier peer. */
  predicate Selects(c: L.Config, t: State, now: real, v: View, i: nat, j: nat, a: Rid, b: Rid)
    requires ValidSamples(t.mixed)
  {
    var u := Begin(c, t, now, v);
    && t.tag != Some((v.sid, v.step)) && u.mode == PrefillTurn && HistoryOf(u.svc, b) != NOTHING
    && i < |u.sel.candidates| && j < |u.sel.candidates| && u.sel.candidates[i].id == a && u.sel.candidates[j].id == b
    && Tier(u.sel.priorityMode, u.sel.candidates[i]) == Tier(u.sel.priorityMode, u.sel.candidates[j])
    && b in u.sel.selected
  }

  /** Main theorem 8, round robin. After a turn of `b`, through any run on a monotone clock
      in which `a` gets no turn and `b` is not forgotten, the next prefill turn does not
      select `b` past its tier peer `a`, unless `a` was natively refused just before. */
  lemma RoundRobin(c: L.Config, s: State, e: Event, es: seq<Event>, t: State, clock: real, now: real, v: View, i: nat, j: nat, a: Rid, b: Rid)
    requires StateOk(c, s) && Legal(c, s, e) && ServiceOk(s.svc, clock) && Ticks(clock, [e] + es)
    requires IsRun(c, Step(c, s, e), es, t) && TakesTurn(c, s, e, a, b) && !Disturbed(c, Step(c, s, e), es, a, b)
    requires StateOk(c, t) && Selects(c, t, now, v, i, j, a, b)
    ensures var u := Begin(c, t, now, v); a in u.sel.selected || a in u.sel.licensed
  {
    assert ([e] + es)[1..] == es;
    StepService(c, s, e);
    StepServiceOk(s, e, clock);
    TurnGoesBehind(s, e, clock, a, b);
    OvertakingNeedsATurn(c, Step(c, s, e), es, t, Tick(clock, e), a, b);
    RunServiceOk(c, Step(c, s, e), es, t, Tick(clock, e));
    OpenKeepsAhead(t.svc, now, v, ClockAfter(Tick(clock, e), es), a, b);
    TurnsFollowTheOrder(c, t, now, v, i, j);
  }

  // ----- from the initial state on -----

  /** `s` is reached from the initial object on a monotone clock that now shows `clock`. */
  ghost predicate ReachedAt(c: L.Config, s: State, clock: real) {
    exists start: real, es: seq<Event> :: start >= 0.0 && IsRun(c, Init(), es, s) && Ticks(start, es) && ClockAfter(start, es) == clock
  }

  /** Main theorem: in every state reached from the initial one on a monotone clock, no
      service lies in the future and no turn number exceeds the counter. */
  lemma ReachedServiceOk(c: L.Config, s: State, clock: real)
    requires L.ValidConfig(c) && ReachedAt(c, s, clock)
    ensures StateOk(c, s) && ServiceOk(s.svc, clock)
  {
    var start: real, es: seq<Event> :| start >= 0.0 && IsRun(c, Init(), es, s) && Ticks(start, es) && ClockAfter(start, es) == clock;
    RunKeepsOk(c, Init(), es, s);
    InitialServiceOk(start);
    RunServiceOk(c, Init(), es, s, start);
  }

  /** Whoever is ahead in a reachable state stays ahead until it takes a turn or the other
      is forgotten. */
  lemma ReachedOrderHolds(c: L.Config, s: State, es: seq<Event>, t: State, clock: real, a: Rid, b: Rid)
    requires L.ValidConfig(c) && ReachedAt(c, s, clock) && IsRun(c, s, es, t) && Ticks(clock, es) && Ahead(s.svc, a, b)
    ensures Ahead(t.svc, a, b) || Disturbed(c, s, es, a, b)
  {
    ReachedServiceOk(c, s, clock);
    OvertakingNeedsATurn(c, s, es, t, clock, a, b);
  }

  /** Main theorem, round robin from the initial state on: in every reachable state, once
      `b` took a turn, no run in which `a` has none and `b` is not forgotten leads to a
      step that selects `b` past its peer `a`, unless `a` was natively refused just
      before. */
  lemma ReachedRoundRobin(c: L.Config, s: State, e: Event, es: seq<Event>, t: State, clock: real, now: real, v: View, i: nat, j: nat, a: Rid, b: Rid)
    requires L.ValidConfig(c) && ReachedAt(c, s, clock) && StateOk(c, s) && Legal(c, s, e) && Ticks(clock, [e] + es)
    requires IsRun(c, Step(c, s, e), es, t) && TakesTurn(c, s, e, a, b) && !Disturbed(c, Step(c, s, e), es, a, b)
    requires StateOk(c, t) && Selects(c, t, now, v, i, j, a, b)
    ensures var u := Begin(c, t, now, v); a in u.sel.selected || a in u.sel.licensed
  {
    ReachedServiceOk(c, s, clock);
    RoundRobin(c, s, e, es, t, clock, now, v, i, j, a, b);
  }

  // ----- what is counted as served -----

  predicate DistinctWork(w: seq<L.Work>) { forall i, j :: 0 <= i < j < |w| ==> w[i].rid != w[j].rid }

  lemma {:induction false} NoTokens(w: seq<L.Work>, r: Rid)
    requires forall i :: 0 <= i < |w| ==> w[i].rid != r
    ensures L.Tokens(w, r) == 0
  {
    if w != [] {
      NoTokens(w[1..], r);
    }
  }

  /** Counting one more entry, left out if it holds no tokens. */
  lemma TokensMaybe(n: int, x: Rid, w: seq<L.Work>, r: Rid)
    ensures L.Tokens((if n > 0 then [L.Work(x, n)] else []) + w, r) == if n > 0 && x == r then n else L.Tokens(w, r)
  {
    if n > 0 {
      assert ([L.Work(x, n)] + w)[1..] == w;
    } else {
      assert [] + w == w;
    }
  }

  /** What a step counts as prompt work of a request: the scheduled tokens, but no more
      than the request still has to prefill; nothing for unknown requests. */
  lemma {:induction false} PrefillWorkExactly(v: View, scheduled: seq<L.Work>, r: Rid)
    requires DistinctWork(scheduled)
    ensures L.Tokens(PrefillWork(v, scheduled), r)
            == if r in v.known then Min(L.Tokens(scheduled, r), Remaining(v.known[r], None)) else 0
  {
    if scheduled != [] {
      var h, rest := scheduled[0], scheduled[1..];
      PrefillWorkExactly(v, rest, r);
      var n := if h.rid in v.known then Min(h.n, Remaining(v.known[h.rid], None)) else 0;
      TokensMaybe(n, h.rid, PrefillWork(v, rest), r);
      if h.rid == r {
        NoTokens(rest, r);
      }
    }
  }

  /** What a completion counts as served: what the output delivered, but no more than the
      step's prompt work. */
  lemma {:induction false} ServedExactly(w: seq<L.Work>, actual: map<Rid, int>, r: Rid)
    requires DistinctWork(w) && forall i :: 0 <= i < |w| ==> w[i].n > 0
    ensures L.Tokens(Served(w, actual), r) == Min(L.Tokens(w, r), Max(0, Get(actual, r, 0)))
  {
    if w != [] {
      ServedExactly(w[1..], actual, r);
      var n := Get(actual, w[0].rid, 0);
      TokensMaybe(if n > 0 then Min(w[0].n, n) else 0, w[0].rid, Served(w[1..], actual), r);
      if w[0].rid == r {
        NoTokens(w[1..], r);
      }
    }
  }

  // ----- the reordered running queue -----

  lemma {:induction false} FilterConcat(a: seq<Request>, b: seq<Request>, prefill: bool)
    ensures Filter(a + b, prefill) == Filter(a, prefill) + Filter(b, prefill)
  {
    if a == [] {
      assert a + b == b;
    } else {
      assert (a + b)[0] == a[0] && (a + b)[1..] == a[1..] + b;
      FilterConcat(a[1..], b, prefill);
      var x := if NeedsPrefill(a[0]) == prefill then [a[0]] else [];
      assert x + Filter(a[1..], prefill) + Filter(b, prefill) == x + (Filter(a[1..], prefill) + Filter(b, prefill));
    }
  }

  lemma {:induction false} FilterPure(rs: seq<Request>, prefill: bool)
    ensures forall i :: 0 <= i < |Filter(rs, prefill)| ==> NeedsPrefill(Filter(rs, prefill)[i]) == prefill
    ensures Filter(Filter(rs, prefill), prefill) == Filter(rs, prefill) && Filter(Filter(rs, prefill), !prefill) == []
  {
    if rs != [] {
      FilterPure(rs[1..], prefill);
      var t := Filter(rs[1..], prefill);
      if NeedsPrefill(rs[0]) == prefill {
        assert ([rs[0]] + t)[1..] == t;
      } else {
        assert [] + t == t;
      }
    }
  }

  lemma {:induction false} FiltersSplit(rs: seq<Request>)
    ensures multiset(Filter(rs, false)) + multiset(Filter(rs, true)) == multiset(rs)
  {
    if rs != [] {
      assert rs == [rs[0]] + rs[1..];
      FiltersSplit(rs[1..]);
    }
  }

  /** The queue handed back to the base loop: the same requests, no prefill ahead of a
      decode, and the order within each group as it was. */
  lemma DecodesComeFirst(running: seq<Request>)
    ensures var d := DecodesFirst(running);
            && multiset(d) == multiset(running)
            && (forall i, j :: 0 <= i < j < |d| && NeedsPrefill(d[i]) ==> NeedsPrefill(d[j]))
            && (forall prefill :: Filter(d, prefill) == Filter(running, prefill))
  {
    var decodes, prefills := Filter(running, false), Filter(running, true);
    FiltersSplit(running);
    FilterPure(running, false);
    FilterPure(running, true);
    forall prefill ensures Filter(decodes + prefills, prefill) == Filter(running, prefill) {
      FilterConcat(decodes, prefills, prefill);
    }
  }
}
