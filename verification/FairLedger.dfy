/** The credit ledger of the fair mixed-prefill policy: shared credit, the tentative
    grants of the open step and the reservations of dispatched steps. */
module FairLedger {
  import opened Common
  import opened FairCost

  type Rid = int

  /** A tentative grant; dictionaries are kept in insertion order. */
  datatype Grant = Grant(rid: Rid, cap: nat, cost: real, borrowed: bool)

  /** Prompt tokens of one request scheduled or served in a step. */
  datatype Work = Work(rid: Rid, n: nat)

  datatype OpenStep = OpenStep(step: int, submitted: real, hadDecode: bool, grants: seq<Grant>, borrowed: bool)

  /** A dispatched step, keyed by its scheduler output, until its completion is
      observed. `owners` pairs each prefill request with its incarnation. */
  datatype Flight = Flight(key: int, submitted: real, hadDecode: bool, prefill: seq<Work>, reserved: real, owners: map<Rid, int>)

  /** Accounted time of a completed decode-carrying step. */
  datatype Charge = Charge(dt: real, mixed: bool)

  /** `entry` and `charges` record the current contention episode for the
      specification: the credit it began with and its completed decode steps. */
  datatype Ledger = Ledger(
    credit: real, inContention: bool, open: Option<OpenStep>, inflight: seq<Flight>,
    lastAccount: Option<real>, entry: real, charges: seq<Charge>)

  datatype Mode = Off | Skip | FixedCap(cap: nat) | Fair

  datatype Config = Config(mode: Mode, chunk: nat, share: real, intervalS: real, maxChunks: nat, maxStepS: real)

  /** What `_parse` guarantees of the knobs. */
  predicate ValidConfig(c: Config) {
    c.chunk >= 1 && 0.0 <= c.share <= 1.0 && c.intervalS > 0.0 && 1 <= c.maxChunks <= 16 && c.maxStepS >= 0.001
  }

  function SumCosts(g: seq<Grant>): real { if g == [] then 0.0 else g[0].cost + SumCosts(g[1..]) }

  function SumReserved(f: seq<Flight>): real { if f == [] then 0.0 else f[0].reserved + SumReserved(f[1..]) }

  function Grants(l: Ledger): seq<Grant> { if l.open.Some? then l.open.value.grants else [] }

  predicate HasGrant(g: seq<Grant>, rid: Rid) { exists i :: 0 <= i < |g| && g[i].rid == rid }

  function FindGrant(g: seq<Grant>, rid: Rid): (r: Option<Grant>)
    ensures r.Some? <==> HasGrant(g, rid)
    ensures r.Some? ==> r.value in g && r.value.rid == rid
  {
    if g == [] then None
    else if g[0].rid == rid then Some(g[0])
    else
      assert forall i :: 0 <= i < |g[1..]| ==> g[1..][i] == g[i + 1];
      FindGrant(g[1..], rid)
  }

  /** `dict.pop`: remove the first (only) entry of `rid`. */
  function DropGrant(g: seq<Grant>, rid: Rid): seq<Grant> {
    if g == [] then [] else if g[0].rid == rid then g[1..] else [g[0]] + DropGrant(g[1..], rid)
  }

  predicate UniqueGrants(g: seq<Grant>) { forall i, j :: 0 <= i < j < |g| ==> g[i].rid != g[j].rid }

  lemma {:induction false} DropGrantSpec(g: seq<Grant>, rid: Rid)
    requires UniqueGrants(g)
    ensures UniqueGrants(DropGrant(g, rid))
    ensures forall x :: x in DropGrant(g, rid) <==> x in g && x.rid != rid
    ensures |DropGrant(g, rid)| == if HasGrant(g, rid) then |g| - 1 else |g|
    ensures var f := FindGrant(g, rid);
            SumCosts(DropGrant(g, rid)) == SumCosts(g) - (if f.Some? then f.value.cost else 0.0)
  {
    if g != [] {
      assert forall x :: x in g <==> x == g[0] || x in g[1..];
      if g[0].rid == rid {
        forall x | x in g[1..] ensures x.rid != rid {
          var i :| 0 <= i < |g[1..]| && g[1..][i] == x;
          assert g[i + 1] == x;
        }
      } else {
        DropGrantSpec(g[1..], rid);
        var d := DropGrant(g[1..], rid);
        forall x | x in d ensures x.rid != g[0].rid {
          var i :| 0 <= i < |g[1..]| && g[1..][i] == x;
          assert g[i + 1] == x;
        }
        assert HasGrant(g, rid) == HasGrant(g[1..], rid) by {
          if i :| 0 <= i < |g| && g[i].rid == rid { assert g[1..][i - 1].rid == rid; }
          if i :| 0 <= i < |g[1..]| && g[1..][i].rid == rid { assert g[i + 1].rid == rid; }
        }
      }
    }
  }

  lemma {:induction false} SumCostsAppend(g: seq<Grant>, x: Grant)
    ensures SumCosts(g + [x]) == SumCosts(g) + x.cost
  {
    if g == [] {
      assert g + [x] == [x];
    } else {
      assert (g + [x])[1..] == g[1..] + [x];
      SumCostsAppend(g[1..], x);
    }
  }

  // ----- ledger transitions -----

  function AnyDecodeInflight(f: seq<Flight>): bool { exists i :: 0 <= i < |f| && f[i].hadDecode }

  function PrefillInflight(f: seq<Flight>): bool { exists i :: 0 <= i < |f| && f[i].prefill != [] }

  /** A different scheduler object starts from an empty ledger. */
  function Forget(l: Ledger): Ledger {
    l.(credit := 0.0, inContention := false, open := None, inflight := [], lastAccount := None)
  }

  /** Ledger part of `begin_step`; `probe` is min(max_step_s, est(chunk)). */
  function Begin(l: Ledger, step: int, now: real, fair: bool, hasDecode: bool, hasPrefill: bool, probe: real): Ledger {
    var refunded := l.(credit := l.credit + SumCosts(Grants(l)), open := Some(OpenStep(step, now, hasDecode, [], false)));
    var settled := if !hasDecode && !AnyDecodeInflight(l.inflight)
                   then refunded.(credit := 0.0, inContention := false) else refunded;
    if fair && hasDecode && hasPrefill && !settled.inContention
    then settled.(credit := probe, inContention := true, entry := probe, charges := [])
    else settled
  }

  /** A grant moves its cost from credit into the open step. */
  function Give(l: Ledger, g: Grant): Ledger
    requires l.open.Some?
  {
    var o := l.open.value;
    l.(credit := l.credit - g.cost, open := Some(o.(grants := o.grants + [g], borrowed := o.borrowed || g.borrowed)))
  }

  /** `_release` hands a tentative grant back, if the request holds one. */
  function TakeBack(l: Ledger, rid: Rid): Ledger
    requires l.open.Some?
  {
    var o := l.open.value;
    match FindGrant(o.grants, rid)
    case None => l
    case Some(g) =>
      l.(credit := l.credit + g.cost,
         open := Some(o.(grants := DropGrant(o.grants, rid), borrowed := o.borrowed && !g.borrowed)))
  }

  function Tokens(w: seq<Work>, rid: Rid): nat {
    if w == [] then 0 else if w[0].rid == rid then w[0].n else Tokens(w[1..], rid)
  }

  function TotalWork(w: seq<Work>): nat { if w == [] then 0 else w[0].n + TotalWork(w[1..]) }

  /** What a grant still reserves once the final schedule is known. */
  function Sealed(m: CostModel, g: Grant, prefill: seq<Work>): real
    requires ValidModel(m)
  {
    if Tokens(prefill, g.rid) > 0 then MinR(g.cost, Estimate(m, Tokens(prefill, g.rid))) else 0.0
  }

  function SumSealed(m: CostModel, g: seq<Grant>, prefill: seq<Work>): real
    requires ValidModel(m)
  {
    if g == [] then 0.0 else Sealed(m, g[0], prefill) + SumSealed(m, g[1..], prefill)
  }

  /** Ledger part of `finish_step`: refund what was not scheduled, reserve the rest
      in an in-flight record unless the schedule is empty or the mode is not fair. */
  function Seal(l: Ledger, m: CostModel, key: int, prefill: seq<Work>, empty: bool, fair: bool, owners: map<Rid, int>): Ledger
    requires l.open.Some? && ValidModel(m)
  {
    var o := l.open.value;
    var reserved := SumSealed(m, o.grants, prefill);
    var back := l.(credit := l.credit + SumCosts(o.grants) - reserved, open := None);
    if empty || !fair then back
    else back.(inflight := l.inflight + [Flight(key, o.submitted, o.hadDecode, prefill, reserved, owners)])
  }

  function IndexOf(f: seq<Flight>, key: int): (r: Option<nat>)
    ensures r.Some? ==> r.value < |f| && f[r.value].key == key
    ensures r.None? ==> forall i :: 0 <= i < |f| ==> f[i].key != key
  {
    if f == [] then None
    else if f[0].key == key then Some(0)
    else
      assert forall i :: 1 <= i < |f| ==> f[i] == f[1..][i - 1];
      match IndexOf(f[1..], key) case None => None case Some(i) => Some(i + 1)
  }

  /** Accounted seconds of a completion: the part of [submit, now] not accounted yet. */
  function StartOf(l: Ledger, f: Flight): real {
    if l.lastAccount.Some? then MaxR(f.submitted, l.lastAccount.value) else f.submitted
  }

  function Elapsed(l: Ledger, f: Flight, now: real): (dt: real)
    ensures dt >= 0.0
  {
    MaxR(0.0, now - StartOf(l, f))
  }

  /** Drop record `i` and, if it carried decodes, settle its reservation against the
      accrual and, when `served`, against the accounted time `dt`. */
  function Charged(l: Ledger, i: nat, last: real, dt: real, accrual: real, limit: real, served: bool): Ledger
    requires i < |l.inflight|
  {
    var f := l.inflight[i];
    var l1 := l.(inflight := l.inflight[..i] + l.inflight[i + 1..], lastAccount := Some(last));
    if f.hadDecode
    then l1.(credit := MinR(l.credit + f.reserved + accrual - (if served then dt else 0.0), limit),
             charges := l.charges + [Charge(dt, served)])
    else l1
  }

  /** Ledger part of `observe_output` for the record at index `i`. */
  function Settle(l: Ledger, share: real, limit: real, i: nat, now: real, served: bool): Ledger
    requires i < |l.inflight|
  {
    var dt := Elapsed(l, l.inflight[i], now);
    var last := if l.lastAccount.Some? then MaxR(now, l.lastAccount.value) else now;
    Charged(l, i, last, dt, share * dt, limit, served)
  }

  // ----- episode accounting -----

  function DecodeTime(c: seq<Charge>): real { if c == [] then 0.0 else DecodeTime(c[..|c| - 1]) + c[|c| - 1].dt }

  function MixedTime(c: seq<Charge>): real {
    if c == [] then 0.0 else MixedTime(c[..|c| - 1]) + (if c[|c| - 1].mixed then c[|c| - 1].dt else 0.0)
  }

  /** What a fraction `share` of the decode steps' time adds up to. */
  function Accrued(share: real, c: seq<Charge>): real {
    if c == [] then 0.0 else Accrued(share, c[..|c| - 1]) + share * c[|c| - 1].dt
  }

  lemma {:induction false} AccruedIsShareOfTime(share: real, c: seq<Charge>)
    ensures Accrued(share, c) == share * DecodeTime(c)
  {
    if c != [] {
      AccruedIsShareOfTime(share, c[..|c| - 1]);
    }
  }

  /** The most recent mixed step's accounted time, 0 before the first. */
  function LastMixed(c: seq<Charge>): real {
    if c == [] then 0.0 else if c[|c| - 1].mixed then c[|c| - 1].dt else LastMixed(c[..|c| - 1])
  }

  /** Everything the ledger owns: free credit, open grants, in-flight reservations. */
  function Balance(l: Ledger): real { l.credit + SumCosts(Grants(l)) + SumReserved(l.inflight) }

  predicate Mixed(f: Flight) { f.hadDecode && f.prefill != [] }

  ghost predicate GrantsOk(l: Ledger) {
    && UniqueGrants(Grants(l))
    && (forall g :: g in Grants(l) ==> g.cost >= 0.01)
    && (Grants(l) != [] ==> l.inContention && l.open.value.hadDecode && !PrefillInflight(l.inflight))
  }

  ghost predicate FlightsOk(l: Ledger) {
    && (forall i :: 0 <= i < |l.inflight| ==> l.inflight[i].reserved >= 0.0)
    && (forall i :: 0 <= i < |l.inflight| && l.inflight[i].reserved > 0.0 ==> Mixed(l.inflight[i]))
    && (forall i :: 0 <= i < |l.inflight| && Mixed(l.inflight[i]) ==> l.inContention)
    && (forall i, j :: 0 <= i < j < |l.inflight| ==> !(Mixed(l.inflight[i]) && Mixed(l.inflight[j])))
    && (forall i, j :: 0 <= i < j < |l.inflight| ==> l.inflight[i].key != l.inflight[j].key)
  }

  /** Work whose cost is still undecided: open grants or a mixed step in flight. */
  ghost predicate Unsettled(l: Ledger) {
    Grants(l) != [] || exists i :: 0 <= i < |l.inflight| && Mixed(l.inflight[i])
  }

  ghost predicate EpisodeOk(l: Ledger, share: real) {
    l.inContention ==>
      && Balance(l) <= l.entry + Accrued(share, l.charges) - MixedTime(l.charges)
      && LastMixed(l.charges) >= 0.0
      && Balance(l) >= -TOL - LastMixed(l.charges)
      && (Unsettled(l) ==> Balance(l) >= -TOL)
  }

  ghost predicate LedgerOk(l: Ledger, share: real) {
    GrantsOk(l) && FlightsOk(l) && EpisodeOk(l, share)
  }

  /** The time bound on contention: the accounted time of decode steps that also
      served prefill is at most the entry credit, plus the share of all decode-step
      time, plus one such step and the tolerance. */
  ghost predicate WithinShare(entry: real, share: real, c: seq<Charge>) {
    MixedTime(c) <= entry + share * DecodeTime(c) + TOL + LastMixed(c)
  }

  lemma EpisodeBound(l: Ledger, share: real)
    requires LedgerOk(l, share) && l.inContention
    ensures WithinShare(l.entry, share, l.charges)
  {
    AccruedIsShareOfTime(share, l.charges);
  }

  lemma {:induction false} SumReservedNonNegative(f: seq<Flight>)
    requires forall i :: 0 <= i < |f| ==> f[i].reserved >= 0.0
    ensures SumReserved(f) >= 0.0
  {
    if f != [] {
      forall i | 0 <= i < |f[1..]| ensures f[1..][i].reserved >= 0.0 { assert f[1..][i] == f[i + 1]; }
      SumReservedNonNegative(f[1..]);
    }
  }

  lemma {:induction false} SumReservedZero(f: seq<Flight>)
    requires forall i :: 0 <= i < |f| ==> f[i].reserved == 0.0
    ensures SumReserved(f) == 0.0
  {
    if f != [] {
      forall i | 0 <= i < |f[1..]| ensures f[1..][i].reserved == 0.0 { assert f[1..][i] == f[i + 1]; }
      SumReservedZero(f[1..]);
    }
  }

  lemma {:induction false} SumReservedAppend(f: seq<Flight>, x: Flight)
    ensures SumReserved(f + [x]) == SumReserved(f) + x.reserved
  {
    if f == [] {
      assert f + [x] == [x];
    } else {
      assert (f + [x])[1..] == f[1..] + [x];
      SumReservedAppend(f[1..], x);
    }
  }

  lemma {:induction false} SumReservedRemove(f: seq<Flight>, i: nat)
    requires i < |f|
    ensures SumReserved(f[..i] + f[i + 1..]) == SumReserved(f) - f[i].reserved
  {
    if i == 0 {
      assert f[..0] + f[1..] == f[1..];
    } else {
      assert (f[..i] + f[i + 1..])[1..] == f[1..][..i - 1] + f[1..][i..];
      SumReservedRemove(f[1..], i - 1);
    }
  }

  lemma {:induction false} SumCostsNonNegative(g: seq<Grant>)
    requires forall x :: x in g ==> x.cost >= 0.0
    ensures SumCosts(g) >= 0.0
  {
    if g != [] {
      SumCostsNonNegative(g[1..]);
    }
  }

  // ----- conservation -----

  /** Granting and releasing move credit without creating or losing any. */
  lemma GiveConserves(l: Ledger, g: Grant)
    requires l.open.Some?
    ensures Balance(Give(l, g)) == Balance(l)
  {
    SumCostsAppend(l.open.value.grants, g);
  }

  lemma TakeBackConserves(l: Ledger, rid: Rid)
    requires l.open.Some? && UniqueGrants(Grants(l))
    ensures Balance(TakeBack(l, rid)) == Balance(l)
  {
    DropGrantSpec(l.open.value.grants, rid);
  }

  lemma {:induction false} SealedBounds(m: CostModel, g: seq<Grant>, prefill: seq<Work>)
    requires ValidModel(m) && forall x :: x in g ==> x.cost >= 0.0
    ensures 0.0 <= SumSealed(m, g, prefill) <= SumCosts(g)
    ensures (forall x :: x in g ==> Tokens(prefill, x.rid) == 0) ==> SumSealed(m, g, prefill) == 0.0
  {
    if g != [] {
      SealedBounds(m, g[1..], prefill);
      EstimateMonotone(m, Tokens(prefill, g[0].rid), Tokens(prefill, g[0].rid));
      assert g[0] in g;
    }
  }

  /** Sealing conserves the balance: every grant becomes a refund plus a reservation.
      An empty schedule reserves nothing, so dropping its record loses nothing. */
  lemma SealConserves(l: Ledger, m: CostModel, key: int, prefill: seq<Work>, empty: bool, fair: bool, owners: map<Rid, int>)
    requires l.open.Some? && ValidModel(m)
    requires empty ==> prefill == []
    requires !fair ==> Grants(l) == []
    ensures Balance(Seal(l, m, key, prefill, empty, fair, owners)) == Balance(l)
  {
    var o := l.open.value;
    if empty {
      SealedNothing(m, o.grants);
    }
    if !empty && fair {
      SumReservedAppend(l.inflight, Flight(key, o.submitted, o.hadDecode, prefill, SumSealed(m, o.grants, prefill), owners));
    }
  }

  lemma {:induction false} SealedNothing(m: CostModel, g: seq<Grant>)
    requires ValidModel(m)
    ensures SumSealed(m, g, []) == 0.0
  {
    if g != [] {
      SealedNothing(m, g[1..]);
    }
  }

  /** An abandoned step's grants are refunded in full while contention lasts. */
  lemma BeginConserves(l: Ledger, step: int, now: real, fair: bool, hasDecode: bool, hasPrefill: bool, probe: real)
    requires l.inContention && (hasDecode || AnyDecodeInflight(l.inflight))
    ensures Balance(Begin(l, step, now, fair, hasDecode, hasPrefill, probe)) == Balance(l)
  {
  }

  /** Settling removes exactly one record and its reservation; settling the same
      output again finds no record. */
  lemma SettleOnce(l: Ledger, share: real, limit: real, key: int, now: real, served: bool)
    requires FlightsOk(l) && IndexOf(l.inflight, key).Some?
    ensures var l2 := Settle(l, share, limit, IndexOf(l.inflight, key).value, now, served);
            && IndexOf(l2.inflight, key).None?
            && SumReserved(l2.inflight) == SumReserved(l.inflight) - l.inflight[IndexOf(l.inflight, key).value].reserved
  {
    var i := IndexOf(l.inflight, key).value;
    SumReservedRemove(l.inflight, i);
    var rest := l.inflight[..i] + l.inflight[i + 1..];
    forall j | 0 <= j < |rest| ensures rest[j].key != key {
      assert rest[j] == if j < i then l.inflight[j] else l.inflight[j + 1];
    }
  }
}
