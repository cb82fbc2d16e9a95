/** What one step of the fair mixed-prefill policy may grant, and how completions are
    accounted over a run. */
module FairTurns {
  import opened Common
  import opened FairCost
  import L = FairLedger
  import I = FairInvariant
  import opened FairSelection
  import opened FairPolicy
  import opened FairRuns

  // ----- borrowing -----

  /** A borrowed grant is the step's only grant, and the credit is overdrawn. */
  ghost predicate BorrowOk(s: State) {
    && (forall g :: g in L.Grants(s.led) && g.borrowed ==> s.led.open.value.borrowed)
    && (s.led.open.Some? && s.led.open.value.borrowed ==> |L.Grants(s.led)| == 1 && L.Grants(s.led)[0].borrowed && s.led.credit < -TOL)
  }

  lemma BeginBorrow(c: L.Config, s: State, now: real, v: View)
    requires StateOk(c, s) && BorrowOk(s)
    ensures BorrowOk(Begin(c, s, now, v))
  {
    if s.tag != Some((v.sid, v.step)) {
      BeginLedgerKeeps(c, s.led, Swapped(s, v), Model(s), now, v);
      FreshBorrow(Begin(c, s, now, v), BeginLedger(c, s.led, Swapped(s, v), Model(s), now, v));
    }
  }

  lemma FreshBorrow(s: State, led: L.Ledger)
    requires s.led == led && led.open.Some? && led.open.value.grants == [] && !led.open.value.borrowed
    ensures BorrowOk(s)
  {
  }

  lemma ReleaseBorrow(c: L.Config, s: State, rid: Rid, why: Reason)
    requires StateOk(c, s) && BorrowOk(s)
    ensures BorrowOk(Release(c, s, rid, why))
  {
    if s.led.open.Some? {
      L.DropGrantSpec(L.Grants(s.led), rid);
      TakeBackBorrow(s, s.(led := L.TakeBack(s.led, rid)), rid);
    }
  }

  lemma TakeBackBorrow(s: State, s2: State, rid: Rid)
    requires BorrowOk(s) && s.led.open.Some? && L.UniqueGrants(L.Grants(s.led))
    requires s2.led == L.TakeBack(s.led, rid)
    ensures BorrowOk(s2)
  {
    var g := L.Grants(s.led);
    L.DropGrantSpec(g, rid);
    if s.led.open.value.borrowed {
      assert g == [g[0]];
    }
  }

  lemma GrantBorrow(s: State, rid: Rid, p: Pick, borrowed: bool)
    requires BorrowOk(s) && s.led.open.Some? && !s.led.open.value.borrowed
    requires borrowed ==> L.Grants(s.led) == [] && p.cost > s.led.credit + TOL
    ensures BorrowOk(Grant(s, rid, p, borrowed))
  {
  }

  /** After a borrowed grant no other request is affordable in the step. */
  lemma AdmitBorrow(c: L.Config, s: State, now: real, r: Request, remaining: nat)
    requires StateOk(c, s) && BorrowOk(s) && s.led.open.Some?
    ensures BorrowOk(Admit(c, s, now, r, remaining).state)
  {
    DecideBounds(c, s, now, r, remaining);
    match Decide(c, s, now, r, remaining)
    case Allow(pick, borrowed) => GrantBorrow(s, r.id, pick, borrowed);
    case Deny(why) =>
      var d := s.(sel := s.sel.(deferred := s.sel.deferred + {Tier(s.sel.priorityMode, r)}));
      NotesKeep(c, s, s.sel.passed, d.sel.deferred);
      ReleaseBorrow(c, d, r.id, why);
  }

  lemma StepBorrow(c: L.Config, s: State, e: Event)
    requires StateOk(c, s) && Legal(c, s, e) && BorrowOk(s) && !e.ObserveOutput?
    ensures BorrowOk(Step(c, s, e))
  {
    match e
    case BeginStep(now, v) => BeginBorrow(c, s, now, v);
    case Cap(now, v, r, computed) =>
      BeginKeeps(c, s, now, v);
      BeginBorrow(c, s, now, v);
      CapBorrow(c, Begin(c, s, now, v), now, v, r, computed);
    case Scheduled(rid, n) => ReleaseBorrow(c, s, rid, ZeroProgress);
    case AllocFailed(rid) => RefusedBorrow(c, s, rid);
    case FinishStep(v, key, work) => assert Step(c, s, e).led.open.None?;
  }

  lemma RefusedBorrow(c: L.Config, s: State, rid: Rid)
    requires StateOk(c, s) && BorrowOk(s)
    ensures BorrowOk(NoteAllocFailed(c, s, rid))
  {
    if s.led.open.Some? {
      TakeBackBorrow(s, NoteAllocFailed(c, s, rid).(led := L.TakeBack(s.led, rid)), rid);
    }
  }

  lemma CapBorrow(c: L.Config, s: State, now: real, v: View, r: Request, computed: Option<nat>)
    requires StateOk(c, s) && BorrowOk(s) && (c.mode == L.Fair ==> s.led.open.Some?)
    ensures BorrowOk(CapInStep(c, s, now, v, r, computed).state)
  {
    var s1 := s.(sel := s.sel.(passed := s.sel.passed + {r.id}));
    NotesKeep(c, s, s1.sel.passed, s.sel.deferred);
    if Remaining(r, computed) > 0 && c.mode == L.Fair && s.mode != Solo && L.FindGrant(L.Grants(s.led), r.id).None?
       && s1.mode == PrefillTurn && r.id in s1.sel.selected {
      AdmitBorrow(c, s1, now, r, Remaining(r, computed));
    }
  }

  /** Main theorem 5. From the opening of a step on, as long as no completion is
      observed, a borrowed grant is the only grant of its step. */
  lemma BorrowedIsAlone(c: L.Config, s: State, es: seq<Event>, t: State)
    requires IsRun(c, s, es, t) && L.Grants(s.led) == [] && (s.led.open.Some? ==> !s.led.open.value.borrowed)
    requires forall e :: e in es ==> !e.ObserveOutput?
    ensures forall g :: g in L.Grants(t.led) && g.borrowed ==> L.Grants(t.led) == [g]
  {
    BorrowRun(c, s, es, t);
    BorrowAlone(t);
  }

  lemma BorrowAlone(t: State)
    requires BorrowOk(t)
    ensures forall g :: g in L.Grants(t.led) && g.borrowed ==> L.Grants(t.led) == [g]
  {
    var g := L.Grants(t.led);
    if |g| == 1 { assert g == [g[0]]; }
  }

  lemma {:induction false} BorrowRun(c: L.Config, s: State, es: seq<Event>, t: State)
    requires IsRun(c, s, es, t) && BorrowOk(s)
    requires forall e :: e in es ==> !e.ObserveOutput?
    ensures BorrowOk(t)
    decreases |es|
  {
    if es != [] {
      assert es[0] in es && forall e :: e in es[1..] ==> e in es;
      StepBorrow(c, s, es[0]);
      BorrowRun(c, Step(c, s, es[0]), es[1..], t);
    }
  }

  // ----- what justifies a grant -----

  /** A new grant is never issued while the shared credit is below -tolerance. It fits
      the credit, or it is the one borrowed chunk: due, with no other grant open and no
      strictly higher tier deferred in this step. */
  lemma GrantIsJustified(c: L.Config, s: State, now: real, r: Request, remaining: nat)
    requires StateOk(c, s) && s.led.open.Some?
    ensures var a := Admit(c, s, now, r, remaining);
            var g := L.FindGrant(L.Grants(a.state.led), r.id);
            !L.HasGrant(L.Grants(s.led), r.id) && g.Some? ==>
              && s.led.credit >= -TOL && g.value.cost <= GapRoom(c, s) + TOL && a.cap == Some(g.value.cap)
              && (if g.value.borrowed
                  then L.Grants(s.led) == [] && (forall d :: d in s.sel.deferred ==> d >= Tier(s.sel.priorityMode, r))
                       && (r.id !in s.svc.lastService || Age(s, now, r.id) >= c.intervalS)
                  else g.value.cost <= s.led.credit + TOL)
  {
    DecideBounds(c, s, now, r, remaining);
    if !L.HasGrant(L.Grants(s.led), r.id) {
      match Decide(c, s, now, r, remaining)
      case Allow(pick, borrowed) => NewGrant(s, r.id, pick, borrowed);
      case Deny(why) => DeferGrantsNothing(c, s, r, why);
    }
  }

  lemma NewGrant(s: State, rid: Rid, p: Pick, borrowed: bool)
    requires s.led.open.Some? && !L.HasGrant(L.Grants(s.led), rid)
    ensures L.FindGrant(L.Grants(Grant(s, rid, p, borrowed).led), rid) == Some(L.Grant(rid, p.tokens, p.cost, borrowed))
  {
    FindAppended(L.Grants(s.led), L.Grant(rid, p.tokens, p.cost, borrowed));
  }

  lemma {:induction false} FindAppended(g: seq<L.Grant>, x: L.Grant)
    requires !L.HasGrant(g, x.rid)
    ensures L.FindGrant(g + [x], x.rid) == Some(x)
  {
    if g != [] {
      assert g[0].rid != x.rid;
      assert forall i :: 0 <= i < |g[1..]| ==> g[1..][i] == g[i + 1];
      FindAppended(g[1..], x);
      assert (g + [x])[1..] == g[1..] + [x];
    }
  }

  lemma DeferGrantsNothing(c: L.Config, s: State, r: Request, why: Reason)
    requires StateOk(c, s) && s.led.open.Some? && !L.HasGrant(L.Grants(s.led), r.id)
    ensures L.FindGrant(L.Grants(Defer(c, s, r, why).state.led), r.id).None?
  {
    assert L.TakeBack(s.led, r.id) == s.led;
  }

  /** Under the priority policy, with a strictly lower tier present, a candidate is
      deferred for credit only if none of its rungs fits the remaining credit and step
      room, so a lower tier never overtakes an affordable admission. */
  lemma DeferralMeansUnaffordable(c: L.Config, s: State, now: real, r: Request, remaining: nat, rung: nat)
    requires StateOk(c, s) && s.led.open.Some? && remaining >= 1
    requires s.sel.priorityMode && exists i :: 0 <= i < |s.sel.candidates| && Tier(true, s.sel.candidates[i]) > Tier(true, r)
    requires rung in Rungs(Model(s), c.chunk, Some(remaining))
    requires Estimate(Model(s), rung) <= MinR(GapRoom(c, s), MaxR(0.0, s.led.credit)) + TOL
    ensures var d := Decide(c, s, now, r, remaining); d.Allow? && 1 <= d.pick.tokens <= remaining
  {
    var m := Model(s);
    var room := MinR(GapRoom(c, s), MaxR(0.0, s.led.credit));
    TargetIsMostEfficient(m, c.chunk, Some(remaining), room, rung);
    TargetIsMostEfficient(m, c.chunk, Some(remaining), GapRoom(c, s), rung);
  }

  // ----- conservation along a run -----

  /** No event but a matching completion, or a step boundary that ends or begins a
      contention episode, changes what the ledger owns. */
  lemma StepConserves(c: L.Config, s: State, e: Event)
    requires StateOk(c, s) && Legal(c, s, e)
    requires e.Scheduled? || e.AllocFailed? || e.FinishStep? || (e.ObserveOutput? && L.IndexOf(s.led.inflight, e.key).None?)
    ensures L.Balance(Step(c, s, e).led) == L.Balance(s.led)
  {
    match e
    case Scheduled(rid, n) => if s.led.open.Some? { L.TakeBackConserves(s.led, rid); }
    case AllocFailed(rid) => if s.led.open.Some? { L.TakeBackConserves(s.led, rid); }
    case FinishStep(v, key, work) =>
      if s.led.open.Some? {
        NoTurnNoGrants(c, s);
        var w := PrefillWork(v, work);
        L.SealConserves(s.led, Model(s), key, w, work == [], c.mode == L.Fair, Owners(s.svc, w));
      }
    case ObserveOutput(_, _, _, _) =>
  }

  lemma CapConserves(c: L.Config, s: State, now: real, v: View, r: Request, computed: Option<nat>)
    requires StateOk(c, s) && (c.mode == L.Fair ==> s.led.open.Some?)
    ensures L.Balance(CapInStep(c, s, now, v, r, computed).state.led) == L.Balance(s.led)
  {
    var s1 := s.(sel := s.sel.(passed := s.sel.passed + {r.id}));
    if c.mode == L.Fair {
      NotesKeep(c, s, s1.sel.passed, s.sel.deferred);
      AdmitConserves(c, s1, now, r, Remaining(r, computed));
    }
  }

  lemma AdmitConserves(c: L.Config, s: State, now: real, r: Request, remaining: nat)
    requires StateOk(c, s) && s.led.open.Some?
    ensures L.Balance(Admit(c, s, now, r, remaining).state.led) == L.Balance(s.led)
  {
    match Decide(c, s, now, r, remaining)
    case Allow(pick, borrowed) => GrantConserves(s, r.id, pick, borrowed);
    case Deny(why) => DeferConserves(c, s, r, why);
  }

  lemma DeferConserves(c: L.Config, s: State, r: Request, why: Reason)
    requires StateOk(c, s) && s.led.open.Some?
    ensures L.Balance(Defer(c, s, r, why).state.led) == L.Balance(s.led)
  {
    L.TakeBackConserves(s.led, r.id);
  }

  lemma GrantConserves(s: State, rid: Rid, p: Pick, borrowed: bool)
    requires s.led.open.Some?
    ensures L.Balance(Grant(s, rid, p, borrowed).led) == L.Balance(s.led)
  {
    L.GiveConserves(s.led, L.Grant(rid, p.tokens, p.cost, borrowed));
  }

  // ----- accounted time is wall time, counted once -----

  function SidOf(e: Event): Option<int> {
    match e
    case BeginStep(_, v) => Some(v.sid)
    case Cap(_, v, _, _) => Some(v.sid)
    case _ => None
  }

  /** Seconds accounted to the completions observed in a run. */
  ghost function Accounted(c: L.Config, s: State, es: seq<Event>): real
    requires StateOk(c, s)
    decreases |es|
  {
    if es == [] || !Legal(c, s, es[0]) then 0.0
    else AccountedBy(s, es[0]) + Accounted(c, Step(c, s, es[0]), es[1..])
  }

  function AccountedBy(s: State, e: Event): real {
    if e.ObserveOutput? && L.IndexOf(s.led.inflight, e.key).Some?
    then L.Elapsed(s.led, s.led.inflight[L.IndexOf(s.led.inflight, e.key).value], e.now) else 0.0
  }

  lemma AccountingAdvances(c: L.Config, s: State, e: Event, sid: int)
    requires StateOk(c, s) && Legal(c, s, e) && s.sched == Some(sid) && s.led.lastAccount.Some?
    requires SidOf(e).Some? ==> SidOf(e).value == sid
    ensures var s2 := Step(c, s, e);
            && s2.sched == Some(sid) && s2.led.lastAccount.Some?
            && AccountedBy(s, e) <= s2.led.lastAccount.value - s.led.lastAccount.value
  {
    match e
    case BeginStep(now, v) => BeginKeepsClock(c, s, now, v);
    case Cap(now, v, r, computed) =>
      BeginKeepsClock(c, s, now, v);
      CapKeepsClock(c, Begin(c, s, now, v), now, v, r, computed);
    case Scheduled(rid, n) =>
    case AllocFailed(rid) =>
    case FinishStep(v, key, work) =>
    case ObserveOutput(now, v, key, actual) => ObserveAdvances(c, s, now, v, key, actual);
  }

  lemma BeginKeepsClock(c: L.Config, s: State, now: real, v: View)
    requires StateOk(c, s) && s.sched == Some(v.sid)
    ensures var s2 := Begin(c, s, now, v); s2.led.lastAccount == s.led.lastAccount && s2.sched == s.sched
  {
    BeginLedgerKeeps(c, s.led, Swapped(s, v), Model(s), now, v);
  }

  lemma ObserveAdvances(c: L.Config, s: State, now: real, v: View, key: int, actual: map<Rid, int>)
    requires StateOk(c, s) && s.led.lastAccount.Some?
    ensures var s2 := Observe(c, s, now, v, key, actual);
            && s2.sched == s.sched && s2.led.lastAccount.Some?
            && AccountedBy(s, ObserveOutput(now, v, key, actual)) <= s2.led.lastAccount.value - s.led.lastAccount.value
  {
  }

  lemma CapKeepsClock(c: L.Config, s: State, now: real, v: View, r: Request, computed: Option<nat>)
    requires ValidSamples(s.mixed) && (c.mode == L.Fair ==> s.led.open.Some?)
    ensures var s2 := CapInStep(c, s, now, v, r, computed).state; s2.led.lastAccount == s.led.lastAccount && s2.sched == s.sched
  {
    if c.mode == L.Fair {
      AdmitKeepsClock(c, s.(sel := s.sel.(passed := s.sel.passed + {r.id})), now, r, Remaining(r, computed));
    }
  }

  lemma AdmitKeepsClock(c: L.Config, s: State, now: real, r: Request, remaining: nat)
    requires ValidSamples(s.mixed) && s.led.open.Some?
    ensures var s2 := Admit(c, s, now, r, remaining).state; s2.led.lastAccount == s.led.lastAccount && s2.sched == s.sched
  {
  }

  /** Main theorem 6. Overlapping asynchronous steps never mint credit twice: over any
      run on one scheduler the accounted seconds of all completions add up to at most
      the wall time between the first and the last accounting instant. */
  lemma {:induction false} AccountedTimeIsWallTime(c: L.Config, s: State, es: seq<Event>, t: State, sid: int)
    requires IsRun(c, s, es, t) && s.sched == Some(sid) && s.led.lastAccount.Some?
    requires forall e :: e in es && SidOf(e).Some? ==> SidOf(e).value == sid
    ensures t.led.lastAccount.Some? && Accounted(c, s, es) <= t.led.lastAccount.value - s.led.lastAccount.value
    decreases |es|
  {
    if es != [] {
      assert es[0] in es && forall e :: e in es[1..] ==> e in es;
      AccountingAdvances(c, s, es[0], sid);
      AccountedTimeIsWallTime(c, Step(c, s, es[0]), es[1..], t, sid);
    }
  }
}
