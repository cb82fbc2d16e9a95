/** Every ledger transition of the fair policy keeps the ledger invariant. */
module FairInvariant {
  import opened Common
  import opened FairCost
  import opened FairLedger

  lemma SumWithoutMixed(f: seq<Flight>)
    requires forall i :: 0 <= i < |f| ==> f[i].reserved >= 0.0 && !Mixed(f[i])
    requires forall i :: 0 <= i < |f| && f[i].reserved > 0.0 ==> Mixed(f[i])
    ensures SumReserved(f) == 0.0
  {
    SumReservedZero(f);
  }

  /** A step boundary refunds abandoned grants, ends an episode only when no decoder
      and no decode step remains, and opens one with the probe as entry credit. */
  lemma BeginKeeps(l: Ledger, share: real, step: int, now: real, fair: bool, hasDecode: bool, hasPrefill: bool, probe: real)
    requires LedgerOk(l, share) && probe >= 0.0
    ensures LedgerOk(Begin(l, step, now, fair, hasDecode, hasPrefill, probe), share)
  {
    var l2 := Begin(l, step, now, fair, hasDecode, hasPrefill, probe);
    assert Grants(l2) == [] && l2.inflight == l.inflight;
    if l2.inContention && !(l.inContention && (hasDecode || AnyDecodeInflight(l.inflight))) {
      SumWithoutMixed(l.inflight);
      assert Balance(l2) == probe;
    }
  }

  lemma BeginShape(l: Ledger, step: int, now: real, fair: bool, hasDecode: bool, hasPrefill: bool, probe: real)
    ensures var l2 := Begin(l, step, now, fair, hasDecode, hasPrefill, probe);
            && l2.open == Some(OpenStep(step, now, hasDecode, [], false))
            && l2.inflight == l.inflight && l2.lastAccount == l.lastAccount
            && (fair && hasDecode && hasPrefill ==> l2.inContention)
  {
  }

  lemma GiveKeeps(l: Ledger, share: real, g: Grant)
    requires LedgerOk(l, share) && l.inContention
    requires l.open.Some? && l.open.value.hadDecode && !PrefillInflight(l.inflight)
    requires g.cost >= 0.01 && !HasGrant(Grants(l), g.rid) && l.credit >= -TOL
    ensures LedgerOk(Give(l, g), share)
  {
    GiveConserves(l, g);
    SumCostsNonNegative(Grants(l));
    SumReservedNonNegative(l.inflight);
  }

  lemma TakeBackGrants(l: Ledger, rid: Rid)
    requires GrantsOk(l) && l.open.Some?
    ensures GrantsOk(TakeBack(l, rid)) && (Grants(TakeBack(l, rid)) != [] ==> Grants(l) != [])
  {
    DropGrantSpec(l.open.value.grants, rid);
  }

  lemma TakeBackKeeps(l: Ledger, share: real, rid: Rid)
    requires LedgerOk(l, share) && l.open.Some?
    ensures LedgerOk(TakeBack(l, rid), share)
  {
    TakeBackConserves(l, rid);
    TakeBackGrants(l, rid);
    var l2 := TakeBack(l, rid);
    assert FlightsOk(l2);
    assert Unsettled(l2) ==> Unsettled(l);
  }

  /** Sealing keeps at most one mixed step in flight, provided that in a
      decode-carrying step only granted requests were scheduled prompt tokens. */
  lemma SealKeeps(l: Ledger, share: real, m: CostModel, key: int, prefill: seq<Work>, empty: bool, fair: bool, owners: map<Rid, int>)
    requires LedgerOk(l, share) && l.open.Some? && ValidModel(m)
    requires empty ==> prefill == []
    requires !fair ==> Grants(l) == []
    requires fair && l.open.value.hadDecode && prefill != [] ==> Grants(l) != []
    requires forall i :: 0 <= i < |l.inflight| ==> l.inflight[i].key != key
    ensures LedgerOk(Seal(l, m, key, prefill, empty, fair, owners), share)
  {
    var l2 := Seal(l, m, key, prefill, empty, fair, owners);
    SealConserves(l, m, key, prefill, empty, fair, owners);
    SealedBounds(m, l.open.value.grants, prefill);
    if prefill == [] { SealedNothing(m, l.open.value.grants); }
    if !empty && fair {
      var f := l2.inflight[|l.inflight|];
      assert l2.inflight == l.inflight + [f];
      if Mixed(f) {
        assert !PrefillInflight(l.inflight);
      }
      forall i, j | 0 <= i < j < |l2.inflight|
        ensures !(Mixed(l2.inflight[i]) && Mixed(l2.inflight[j])) && l2.inflight[i].key != l2.inflight[j].key
      {
      }
      assert Unsettled(l2) ==> Unsettled(l) by {
        if i :| 0 <= i < |l2.inflight| && Mixed(l2.inflight[i]) {
          if i < |l.inflight| { assert Mixed(l.inflight[i]); }
        }
      }
    }
  }

  lemma ChargeTimes(share: real, c: seq<Charge>, x: Charge)
    ensures Accrued(share, c + [x]) == Accrued(share, c) + share * x.dt
    ensures DecodeTime(c + [x]) == DecodeTime(c) + x.dt
    ensures MixedTime(c + [x]) == MixedTime(c) + (if x.mixed then x.dt else 0.0)
    ensures LastMixed(c + [x]) == if x.mixed then x.dt else LastMixed(c)
  {
    assert (c + [x])[..|c|] == c;
  }

  lemma NonNegativeProduct(a: real, b: real)
    requires a >= 0.0 && b >= 0.0
    ensures a * b >= 0.0
  {
  }

  /** Dropping one record leaves the others as they were. */
  lemma WithoutFlight(f: seq<Flight>, i: nat)
    requires i < |f|
    ensures var g := f[..i] + f[i + 1..];
            && |g| == |f| - 1
            && forall j :: 0 <= j < |g| ==> g[j] == if j < i then f[j] else f[j + 1]
  {
  }

  lemma ChargedFlights(l: Ledger, i: nat, last: real, dt: real, accrual: real, limit: real, served: bool)
    requires FlightsOk(l) && i < |l.inflight|
    ensures FlightsOk(Charged(l, i, last, dt, accrual, limit, served))
  {
    var f, g := l.inflight, Charged(l, i, last, dt, accrual, limit, served).inflight;
    WithoutFlight(f, i);
    forall j | 0 <= j < |g|
      ensures g[j].reserved >= 0.0 && (g[j].reserved > 0.0 ==> Mixed(g[j])) && (Mixed(g[j]) ==> l.inContention)
    {
      assert g[j] == f[Skip(i, j)];
    }
    forall j, k | 0 <= j < k < |g| ensures !(Mixed(g[j]) && Mixed(g[k])) && g[j].key != g[k].key {
      ChargedPair(l, i, g, j, k);
    }
  }

  lemma ChargedPair(l: Ledger, i: nat, g: seq<Flight>, j: nat, k: nat)
    requires FlightsOk(l) && i < |l.inflight| && g == l.inflight[..i] + l.inflight[i + 1..] && j < k < |g|
    ensures !(Mixed(g[j]) && Mixed(g[k])) && g[j].key != g[k].key
  {
    assert g[j] == l.inflight[Skip(i, j)] && g[k] == l.inflight[Skip(i, k)] && Skip(i, j) < Skip(i, k);
  }

  function Skip(i: nat, j: nat): nat { if j < i then j else j + 1 }

  lemma ChargedUnsettled(l: Ledger, i: nat, last: real, dt: real, accrual: real, limit: real, served: bool)
    requires GrantsOk(l) && FlightsOk(l) && i < |l.inflight|
    ensures var l2 := Charged(l, i, last, dt, accrual, limit, served);
            GrantsOk(l2) && (Unsettled(l2) ==> Unsettled(l)) && (Mixed(l.inflight[i]) ==> !Unsettled(l2))
  {
    var f, f2 := l.inflight, Charged(l, i, last, dt, accrual, limit, served).inflight;
    WithoutFlight(f, i);
    if j :| 0 <= j < |f2| && f2[j].prefill != [] {
      assert f[if j < i then j else j + 1].prefill != [];
    }
    if j :| 0 <= j < |f2| && Mixed(f2[j]) {
      assert Mixed(f[if j < i then j else j + 1]);
    }
  }

  /** The balance gains the accrual and loses the served time, unless the credit cap
      binds, which only lowers it, and never below zero. */
  lemma ChargedBalance(l: Ledger, i: nat, last: real, dt: real, accrual: real, limit: real, served: bool)
    requires GrantsOk(l) && FlightsOk(l) && i < |l.inflight| && limit >= 0.0
    ensures var l2 := Charged(l, i, last, dt, accrual, limit, served);
            if l.inflight[i].hadDecode
            then var due := Balance(l) + accrual - (if served then dt else 0.0);
                 Balance(l2) <= due && (Balance(l2) == due || Balance(l2) >= 0.0)
            else Balance(l2) == Balance(l)
  {
    var l2 := Charged(l, i, last, dt, accrual, limit, served);
    SumReservedRemove(l.inflight, i);
    ChargedFlights(l, i, last, dt, accrual, limit, served);
    SumReservedNonNegative(l2.inflight);
    SumCostsNonNegative(Grants(l));
  }

  /** A completion accrues its share, settles its reservation, and overdraws by at
      most the accounted time of the one mixed step that was in flight. */
  lemma ChargedKeeps(l: Ledger, share: real, i: nat, last: real, dt: real, accrual: real, limit: real, served: bool)
    requires LedgerOk(l, share) && limit >= 0.0 && dt >= 0.0 && accrual == share * dt && accrual >= 0.0
    requires i < |l.inflight| && (served ==> l.inflight[i].prefill != [])
    ensures LedgerOk(Charged(l, i, last, dt, accrual, limit, served), share)
  {
    ChargedFlights(l, i, last, dt, accrual, limit, served);
    ChargedUnsettled(l, i, last, dt, accrual, limit, served);
    ChargedBalance(l, i, last, dt, accrual, limit, served);
    var l2 := Charged(l, i, last, dt, accrual, limit, served);
    ChargedEpisode(l, share, i, l2, dt, accrual, served);
  }

  /** The arithmetic of one charge, with the ledgers reduced to their balances. */
  lemma ChargedEpisode(l: Ledger, share: real, i: nat, l2: Ledger, dt: real, accrual: real, served: bool)
    requires EpisodeOk(l, share) && i < |l.inflight| && dt >= 0.0 && accrual == share * dt && accrual >= 0.0
    requires l2.inContention == l.inContention && l2.entry == l.entry
    requires l2.charges == if l.inflight[i].hadDecode then l.charges + [Charge(dt, served)] else l.charges
    requires if l.inflight[i].hadDecode
             then var due := Balance(l) + accrual - (if served then dt else 0.0);
                  Balance(l2) <= due && (Balance(l2) == due || Balance(l2) >= 0.0)
             else Balance(l2) == Balance(l)
    requires Unsettled(l2) ==> Unsettled(l)
    requires served && l.inflight[i].hadDecode ==> Unsettled(l) && !Unsettled(l2)
    ensures EpisodeOk(l2, share)
  {
    var b, b2 := Balance(l), Balance(l2);
    var last, last2 := LastMixed(l.charges), LastMixed(l2.charges);
    var acc, acc2 := Accrued(share, l.charges), Accrued(share, l2.charges);
    var mix, mix2 := MixedTime(l.charges), MixedTime(l2.charges);
    if l.inContention && l.inflight[i].hadDecode {
      ChargeTimes(share, l.charges, Charge(dt, served));
      assert acc2 == acc + accrual;
      assert mix2 == mix + if served then dt else 0.0;
      assert last2 == if served then dt else last;
      assert b2 <= l2.entry + acc2 - mix2;
      assert b2 >= -TOL - last2;
    }
  }

  lemma SettleKeeps(l: Ledger, share: real, limit: real, i: nat, now: real, served: bool)
    requires LedgerOk(l, share) && share >= 0.0 && limit >= 0.0
    requires i < |l.inflight| && (served ==> l.inflight[i].prefill != [])
    ensures LedgerOk(Settle(l, share, limit, i, now, served), share)
  {
    var dt := Elapsed(l, l.inflight[i], now);
    NonNegativeProduct(share, dt);
    var last := if l.lastAccount.Some? then MaxR(now, l.lastAccount.value) else now;
    var accrual := share * dt;
    ChargedKeeps(l, share, i, last, dt, accrual, limit, served);
    assert Settle(l, share, limit, i, now, served) == Charged(l, i, last, dt, accrual, limit, served);
  }

  /** Swapping the scheduler object starts over with nothing owned. */
  lemma ForgetKeeps(l: Ledger, share: real)
    ensures LedgerOk(Forget(l), share)
  {
  }

  /** Outside contention nothing is granted or reserved; inside, at most one
      in-flight record holds a positive reservation. */
  lemma ReservationsAreExclusive(l: Ledger, share: real, i: nat, j: nat)
    requires LedgerOk(l, share)
    requires i < j < |l.inflight|
    ensures l.inflight[i].reserved == 0.0 || l.inflight[j].reserved == 0.0
    ensures !l.inContention ==> Grants(l) == [] && l.inflight[i].reserved == 0.0 && l.inflight[j].reserved == 0.0
  {
  }
}
