/** Ranking and selection of prefill candidates in the fair mixed-prefill policy. */
module FairSelection {
  import opened Common
  import opened FairLedger

  /** A scheduler request: `obj` is the identity of the request object behind the id. */
  datatype Request = Request(id: Rid, obj: int, prompt: nat, tokens: nat, computed: nat, priority: int)

  /** `prefill_remaining`, with an explicit number of computed tokens or the request's. */
  function Remaining(r: Request, computed: Option<nat>): nat {
    var tokens := if r.tokens == 0 then r.prompt else r.tokens;
    Max(0, Max(r.prompt, tokens - 1) - (if computed.Some? then computed.value else r.computed))
  }

  predicate NeedsPrefill(r: Request) { Remaining(r, None) > 0 }

  /** Service history the ranking reads. */
  datatype Service = Service(
    lastService: map<Rid, real>, arrival: map<Rid, real>, rrSeq: map<Rid, int>, rrN: int, owner: map<Rid, int>)

  function Get<T>(m: map<Rid, T>, k: Rid, default: T): T { if k in m then m[k] else default }

  function Tier(priorityMode: bool, r: Request): int { if priorityMode then r.priority else 0 }

  /** The sort key: tier, completed-service age, round-robin turn, arrival, id. */
  predicate RankLe(mode: bool, v: Service, a: Request, b: Request) {
    var ta, tb := Tier(mode, a), Tier(mode, b);
    var sa, sb := Get(v.lastService, a.id, 0.0), Get(v.lastService, b.id, 0.0);
    var ra, rb := Get(v.rrSeq, a.id, 0), Get(v.rrSeq, b.id, 0);
    var aa, ab := Get(v.arrival, a.id, 0.0), Get(v.arrival, b.id, 0.0);
    ta < tb || (ta == tb && (sa < sb || (sa == sb && (ra < rb || (ra == rb && (aa < ab || (aa == ab && a.id <= b.id)))))))
  }

  /** The re-ranking key after a refusal: tier, then not-yet-passed first. */
  predicate PassedLe(mode: bool, passed: set<Rid>, a: Request, b: Request) {
    var ta, tb := Tier(mode, a), Tier(mode, b);
    ta < tb || (ta == tb && (a.id in passed ==> b.id in passed))
  }

  /** Stable insertion, before the first element that is not smaller. */
  function Insert(le: (Request, Request) -> bool, r: Request, s: seq<Request>): (o: seq<Request>)
    ensures multiset(o) == multiset(s) + multiset{r}
  {
    if s == [] then [r]
    else if le(r, s[0]) then [r] + s
    else
      assert s == [s[0]] + s[1..];
      [s[0]] + Insert(le, r, s[1..])
  }

  /** Python's stable `sorted` for the comparison `le`. */
  function Sort(le: (Request, Request) -> bool, s: seq<Request>): (o: seq<Request>)
    ensures multiset(o) == multiset(s)
  {
    if s == [] then []
    else
      assert s == [s[0]] + s[1..];
      Insert(le, s[0], Sort(le, s[1..]))
  }

  function Rank(mode: bool, v: Service, s: seq<Request>): seq<Request> {
    Sort((a: Request, b: Request) => RankLe(mode, v, a, b), s)
  }

  function PassedLast(mode: bool, passed: set<Rid>, s: seq<Request>): seq<Request> {
    Sort((a: Request, b: Request) => PassedLe(mode, passed, a, b), s)
  }

  predicate TierSorted(mode: bool, s: seq<Request>) {
    forall i, j :: 0 <= i < j < |s| ==> Tier(mode, s[i]) <= Tier(mode, s[j])
  }

  predicate UniqueIds(s: seq<Request>) { forall i, j :: 0 <= i < j < |s| ==> s[i].id != s[j].id }

  lemma MemberOf<T>(s: seq<T>, t: seq<T>)
    requires multiset(s) == multiset(t)
    ensures forall x :: x in s <==> x in t
  {
    forall x ensures x in s <==> x in t {
      assert x in s <==> x in multiset(s);
      assert x in t <==> x in multiset(t);
    }
  }

  lemma {:induction false} InsertKeepsTiers(mode: bool, le: (Request, Request) -> bool, r: Request, s: seq<Request>)
    requires forall a, b :: le(a, b) ==> Tier(mode, a) <= Tier(mode, b)
    requires forall a, b :: !le(a, b) ==> Tier(mode, b) <= Tier(mode, a)
    requires TierSorted(mode, s)
    ensures TierSorted(mode, Insert(le, r, s))
  {
    if s != [] && !le(r, s[0]) {
      InsertKeepsTiers(mode, le, r, s[1..]);
      var t := Insert(le, r, s[1..]);
      forall x | x in t ensures Tier(mode, s[0]) <= Tier(mode, x) {
        assert x in multiset(t);
        assert x == r || x in s[1..];
      }
      forall j | 0 <= j < |t| ensures Tier(mode, s[0]) <= Tier(mode, t[j]) { assert t[j] in t; }
    }
  }

  lemma {:induction false} SortKeepsTiers(mode: bool, le: (Request, Request) -> bool, s: seq<Request>)
    requires forall a, b :: le(a, b) ==> Tier(mode, a) <= Tier(mode, b)
    requires forall a, b :: !le(a, b) ==> Tier(mode, b) <= Tier(mode, a)
    ensures TierSorted(mode, Sort(le, s))
  {
    if s != [] {
      SortKeepsTiers(mode, le, s[1..]);
      InsertKeepsTiers(mode, le, s[0], Sort(le, s[1..]));
    }
  }

  /** Both rankings are permutations that put lower tiers first. */
  lemma RankingByTier(mode: bool, v: Service, passed: set<Rid>, s: seq<Request>)
    ensures TierSorted(mode, Rank(mode, v, s)) && multiset(Rank(mode, v, s)) == multiset(s)
    ensures TierSorted(mode, PassedLast(mode, passed, s)) && multiset(PassedLast(mode, passed, s)) == multiset(s)
  {
    SortKeepsTiers(mode, (a: Request, b: Request) => RankLe(mode, v, a, b), s);
    SortKeepsTiers(mode, (a: Request, b: Request) => PassedLe(mode, passed, a, b), s);
  }

  predicate SortedBy(le: (Request, Request) -> bool, s: seq<Request>) {
    forall i, j :: 0 <= i < j < |s| ==> le(s[i], s[j])
  }

  ghost predicate TotalOrder(le: (Request, Request) -> bool) {
    (forall a, b :: le(a, b) || le(b, a)) && (forall a, b, c :: le(a, b) && le(b, c) ==> le(a, c))
  }

  lemma {:induction false} InsertSorted(le: (Request, Request) -> bool, r: Request, s: seq<Request>)
    requires TotalOrder(le) && SortedBy(le, s)
    ensures SortedBy(le, Insert(le, r, s))
  {
    if s != [] && !le(r, s[0]) {
      InsertSorted(le, r, s[1..]);
      var t := Insert(le, r, s[1..]);
      forall j | 0 <= j < |t| ensures le(s[0], t[j]) {
        assert t[j] in multiset(t);
        assert t[j] == r || t[j] in s[1..];
      }
    }
  }

  lemma {:induction false} SortSorted(le: (Request, Request) -> bool, s: seq<Request>)
    requires TotalOrder(le)
    ensures SortedBy(le, Sort(le, s))
  {
    if s != [] {
      SortSorted(le, s[1..]);
      InsertSorted(le, s[0], Sort(le, s[1..]));
    }
  }

  lemma RankLeTotal(mode: bool, v: Service)
    ensures TotalOrder((a: Request, b: Request) => RankLe(mode, v, a, b))
  {
  }

  /** Within a tier the ranking is by completed-service age: of two candidates of one
      tier the earlier-ranked was served no later. */
  lemma RankByAge(mode: bool, v: Service, s: seq<Request>, i: nat, j: nat)
    requires i < j < |Rank(mode, v, s)|
    ensures var r := Rank(mode, v, s);
            Tier(mode, r[i]) == Tier(mode, r[j]) ==> Get(v.lastService, r[i].id, 0.0) <= Get(v.lastService, r[j].id, 0.0)
  {
    RankLeTotal(mode, v);
    SortSorted((a: Request, b: Request) => RankLe(mode, v, a, b), s);
  }

  // ----- selection -----

  /** The loop of `_promote_next`: walk the candidates, selecting untried ones while
      fewer than `max` requests are selected or granted. */
  function Promote(cands: seq<Request>, selected: set<Rid>, granted: set<Rid>, tried: set<Rid>, max: nat): set<Rid> {
    if cands == [] || |selected + granted| >= max then selected
    else Promote(cands[1..], if cands[0].id in tried then selected else selected + {cands[0].id}, granted, tried, max)
  }

  /** The first selection loop of `begin_step`: skip candidates natively refused in
      the previous step. */
  function Preselect(cands: seq<Request>, selected: set<Rid>, refusedPrev: set<Rid>, max: nat): set<Rid> {
    if cands == [] || |selected| >= max then selected
    else Preselect(cands[1..], if cands[0].id in refusedPrev then selected else selected + {cands[0].id}, refusedPrev, max)
  }

  lemma {:induction false} PromoteSpec(cands: seq<Request>, selected: set<Rid>, granted: set<Rid>, tried: set<Rid>, max: nat)
    requires granted <= selected && |selected| <= max && UniqueIds(cands)
    ensures var p := Promote(cands, selected, granted, tried, max);
            && selected <= p && |p| <= max
            && (forall x :: x in p && x !in selected ==> x !in tried && exists i :: 0 <= i < |cands| && cands[i].id == x)
            && (forall i, j :: 0 <= i < j < |cands| && cands[j].id in p && cands[j].id !in selected ==>
                  cands[i].id in p || cands[i].id in tried)
  {
    if cands != [] && |selected + granted| < max {
      assert selected + granted == selected;
      var c := cands[0].id;
      var s2 := if c in tried then selected else selected + {c};
      assert |s2| <= |selected| + 1;
      PromoteSpec(cands[1..], s2, granted, tried, max);
      var p := Promote(cands[1..], s2, granted, tried, max);
      assert forall k :: 1 <= k < |cands| ==> cands[1..][k - 1] == cands[k];
      forall x | x in p && x !in selected ensures x !in tried && exists i :: 0 <= i < |cands| && cands[i].id == x {
        if x in s2 {
          assert cands[0].id == x;
        } else {
          var i :| 0 <= i < |cands[1..]| && cands[1..][i].id == x;
          assert cands[i + 1].id == x;
        }
      }
      forall i, j | 0 <= i < j < |cands| && cands[j].id in p && cands[j].id !in selected
        ensures cands[i].id in p || cands[i].id in tried
      {
        if i > 0 {
          assert cands[1..][j - 1] == cands[j] && cands[1..][i - 1] == cands[i];
        }
      }
    }
  }

  lemma {:induction false} PreselectSpec(cands: seq<Request>, selected: set<Rid>, refusedPrev: set<Rid>, max: nat)
    requires |selected| <= max && UniqueIds(cands)
    ensures var p := Preselect(cands, selected, refusedPrev, max);
            && selected <= p && |p| <= max
            && (forall x :: x in p && x !in selected ==> x !in refusedPrev && exists i :: 0 <= i < |cands| && cands[i].id == x)
            && (forall i, j :: 0 <= i < j < |cands| && cands[j].id in p && cands[j].id !in selected ==>
                  cands[i].id in p || cands[i].id in refusedPrev)
  {
    if cands != [] && |selected| < max {
      var c := cands[0].id;
      var s2 := if c in refusedPrev then selected else selected + {c};
      assert |s2| <= |selected| + 1;
      PreselectSpec(cands[1..], s2, refusedPrev, max);
      var p := Preselect(cands[1..], s2, refusedPrev, max);
      assert forall k :: 1 <= k < |cands| ==> cands[1..][k - 1] == cands[k];
      forall x | x in p && x !in selected ensures x !in refusedPrev && exists i :: 0 <= i < |cands| && cands[i].id == x {
        if x in s2 {
          assert cands[0].id == x;
        } else {
          var i :| 0 <= i < |cands[1..]| && cands[1..][i].id == x;
          assert cands[i + 1].id == x;
        }
      }
      forall i, j | 0 <= i < j < |cands| && cands[j].id in p && cands[j].id !in selected
        ensures cands[i].id in p || cands[i].id in refusedPrev
      {
        if i > 0 {
          assert cands[1..][j - 1] == cands[j] && cands[1..][i - 1] == cands[i];
        }
      }
    }
  }

  // ----- the priority invariant -----

  /** What the policy tracks about the current step's candidates. `licensed` records
      for the specification which of them were refused in the previous step. */
  datatype Selection = Selection(
    candidates: seq<Request>, selected: set<Rid>, tried: set<Rid>, passed: set<Rid>,
    refused: set<Rid>, refusedPrev: set<Rid>, deferred: set<int>, priorityMode: bool, licensed: set<Rid>)

  /** A selected candidate never overtakes a strictly higher-priority one, unless that
      one is selected too, was already tried this step, or was natively refused in
      the previous step. */
  ghost predicate NoOvertaking(s: Selection) {
    forall i, j :: 0 <= i < |s.candidates| && 0 <= j < |s.candidates|
                   && Tier(s.priorityMode, s.candidates[i]) < Tier(s.priorityMode, s.candidates[j])
                   && s.candidates[j].id in s.selected
                   ==> s.candidates[i].id in s.selected || s.candidates[i].id in s.tried || s.candidates[i].id in s.licensed
  }

  ghost predicate SelectionOk(s: Selection, granted: set<Rid>, max: nat) {
    && UniqueIds(s.candidates) && TierSorted(s.priorityMode, s.candidates)
    && |s.selected| <= max && granted <= s.selected && granted <= s.tried
    && (forall x :: x in s.selected ==> exists i :: 0 <= i < |s.candidates| && s.candidates[i].id == x)
    && NoOvertaking(s)
  }

  lemma UniqueUnderPermutation(s: seq<Request>, t: seq<Request>)
    requires multiset(s) == multiset(t) && UniqueIds(s)
    ensures UniqueIds(t)
  {
    MemberOf(s, t);
    forall i, j | 0 <= i < j < |t| ensures t[i].id != t[j].id {
      var x, y := t[i], t[j];
      assert x in s && y in s;
      var k :| 0 <= k < |s| && s[k] == x;
      var l :| 0 <= l < |s| && s[l] == y;
      if x == y {
        assert t == t[..i] + [x] + t[i + 1..j] + [y] + t[j + 1..];
        assert multiset(t)[x] >= 2;
        TwiceInSeq(s, x);
        assert false;
      } else {
        assert k < l || l < k;
      }
    }
  }

  lemma {:induction false} TwiceInSeq<T>(s: seq<T>, x: T)
    requires multiset(s)[x] >= 2
    ensures exists i, j :: 0 <= i < j < |s| && s[i] == x && s[j] == x
  {
    assert s == [s[0]] + s[1..];
    if s[0] == x {
      assert multiset(s[1..])[x] >= 1;
      assert x in s[1..];
      var j :| 0 <= j < |s[1..]| && s[1..][j] == x;
      assert s[0] == x && s[j + 1] == x;
    } else {
      TwiceInSeq(s[1..], x);
      var i, j :| 0 <= i < j < |s[1..]| && s[1..][i] == x && s[1..][j] == x;
      assert s[i + 1] == x && s[j + 1] == x;
    }
  }

  /** The order `_promote_next` walks: a tier-sorted permutation of the candidates. */
  function PromotionOrder(s: Selection, preferPassed: bool): seq<Request> {
    if preferPassed then PassedLast(s.priorityMode, s.passed, s.candidates) else s.candidates
  }

  /** `_promote_next` on the current selection. */
  function PromoteNext(s: Selection, granted: set<Rid>, max: nat, preferPassed: bool): Selection {
    s.(selected := Promote(PromotionOrder(s, preferPassed), s.selected, granted, s.tried, max))
  }

  lemma PromotionOrderSpec(s: Selection, preferPassed: bool)
    requires UniqueIds(s.candidates) && TierSorted(s.priorityMode, s.candidates)
    ensures var o := PromotionOrder(s, preferPassed);
            UniqueIds(o) && TierSorted(s.priorityMode, o) && (forall x :: x in o <==> x in s.candidates)
  {
    RankingByTier(s.priorityMode, Service(map[], map[], map[], 0, map[]), s.passed, s.candidates);
    UniqueUnderPermutation(s.candidates, PromotionOrder(s, preferPassed));
    MemberOf(s.candidates, PromotionOrder(s, preferPassed));
  }

  lemma OrderedByTier(mode: bool, order: seq<Request>, a: Request, b: Request) returns (k: nat, l: nat)
    requires TierSorted(mode, order) && a in order && b in order && Tier(mode, a) < Tier(mode, b)
    ensures k < l < |order| && order[k] == a && order[l] == b
  {
    k :| 0 <= k < |order| && order[k] == a;
    l :| 0 <= l < |order| && order[l] == b;
  }

  lemma PromoteNoOvertaking(s: Selection, granted: set<Rid>, max: nat, preferPassed: bool)
    requires SelectionOk(s, granted, max)
    ensures NoOvertaking(PromoteNext(s, granted, max, preferPassed))
  {
    var c, order := s.candidates, PromotionOrder(s, preferPassed);
    PromotionOrderSpec(s, preferPassed);
    PromoteSpec(order, s.selected, granted, s.tried, max);
    var p := Promote(order, s.selected, granted, s.tried, max);
    forall i, j | 0 <= i < |c| && 0 <= j < |c| && Tier(s.priorityMode, c[i]) < Tier(s.priorityMode, c[j]) && c[j].id in p
      ensures c[i].id in p || c[i].id in s.tried || c[i].id in s.licensed
    {
      if c[j].id !in s.selected {
        var k, l := OrderedByTier(s.priorityMode, order, c[i], c[j]);
        assert order[k].id in p || order[k].id in s.tried;
      }
    }
  }

  lemma PromoteKeeps(s: Selection, granted: set<Rid>, max: nat, preferPassed: bool)
    requires SelectionOk(s, granted, max)
    ensures SelectionOk(PromoteNext(s, granted, max, preferPassed), granted, max)
    ensures s.selected <= PromoteNext(s, granted, max, preferPassed).selected
  {
    var c, order := s.candidates, PromotionOrder(s, preferPassed);
    PromotionOrderSpec(s, preferPassed);
    PromoteSpec(order, s.selected, granted, s.tried, max);
    PromoteNoOvertaking(s, granted, max, preferPassed);
    var p := Promote(order, s.selected, granted, s.tried, max);
    forall x | x in p ensures exists i :: 0 <= i < |c| && c[i].id == x {
      if x !in s.selected {
        var i :| 0 <= i < |order| && order[i].id == x;
        assert order[i] in c;
      }
    }
  }

  /** A release moves the request from the selection to the tried set, then promotes. */
  lemma ReleaseKeeps(s: Selection, granted: set<Rid>, max: nat, rid: Rid, preferPassed: bool)
    requires SelectionOk(s, granted, max)
    ensures SelectionOk(PromoteNext(s.(selected := s.selected - {rid}, tried := s.tried + {rid}), granted - {rid}, max, preferPassed),
                        granted - {rid}, max)
  {
    var s2 := s.(selected := s.selected - {rid}, tried := s.tried + {rid});
    assert s2.selected <= s.selected;
    SubsetSize(s2.selected, s.selected);
    assert SelectionOk(s2, granted - {rid}, max);
    PromoteKeeps(s2, granted - {rid}, max, preferPassed);
  }

  lemma {:induction false} SubsetSize<T>(a: set<T>, b: set<T>)
    requires a <= b
    ensures |a| <= |b|
  {
    if a != {} {
      var x :| x in a;
      SubsetSize(a - {x}, b - {x});
    }
  }

  /** The selection a contended step starts with: refusal-licensed preselection,
      then promotion of anything still fitting. */
  function StartTurn(s: Selection, max: nat): Selection {
    PromoteNext(s.(selected := Preselect(s.candidates, {}, s.refusedPrev, max)), {}, max, false)
  }

  lemma StartTurnOk(s: Selection, max: nat)
    requires UniqueIds(s.candidates) && TierSorted(s.priorityMode, s.candidates)
    requires s.selected == {} && s.tried == {} && s.licensed == s.refusedPrev
    ensures SelectionOk(StartTurn(s, max), {}, max)
    ensures RankedStart(StartTurn(s, max))
  {
    var c := s.candidates;
    PreselectSpec(c, {}, s.refusedPrev, max);
    var p := Preselect(c, {}, s.refusedPrev, max);
    var s1 := s.(selected := p);
    forall i, j | 0 <= i < |c| && 0 <= j < |c| && Tier(s.priorityMode, c[i]) < Tier(s.priorityMode, c[j]) && c[j].id in p
      ensures c[i].id in p || c[i].id in s.refusedPrev
    {
      assert i < j;
    }
    PromoteKeeps(s1, {}, max, false);
    PromoteSpec(c, p, {}, {}, max);
  }

  /** At the start of a turn the whole ranking is respected, not only the tiers: an
      earlier-ranked candidate is passed over only on the refusal licence. */
  ghost predicate RankedStart(s: Selection) {
    forall i, j :: 0 <= i < j < |s.candidates| && s.candidates[j].id in s.selected ==>
      s.candidates[i].id in s.selected || s.candidates[i].id in s.licensed
  }
}
