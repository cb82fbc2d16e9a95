/** The step-cost model of the fair mixed-prefill policy
    (overlay/patch_scheduler_decode_floor.py): a least-squares line through recent
    prefill-bearing steps, the estimate derived from it, and the ladder target. */
module FairCost {
  import opened Common

  /** One completed prefill-bearing step: tokens served and accounted seconds. */
  datatype Sample = Sample(n: nat, dt: real)

  const LADDER: seq<nat> := [128, 256, 512, 768, 1024, 1536, 2048]
  const LADDER_MAX: nat := 2048
  const COLD_TOK_S: real := 1300.0
  const FIT_WINDOW: nat := 24
  const TOL: real := 0.000000001

  /** Samples are appended only for steps that served tokens in positive time. */
  predicate ValidSamples(s: seq<Sample>) {
    forall i :: 0 <= i < |s| ==> s[i].n >= 1 && s[i].dt > 0.0
  }

  function SumN(s: seq<Sample>): int { if s == [] then 0 else SumN(s[..|s| - 1]) + s[|s| - 1].n }

  function SumNN(s: seq<Sample>): int { if s == [] then 0 else SumNN(s[..|s| - 1]) + s[|s| - 1].n * s[|s| - 1].n }

  function SumDt(s: seq<Sample>): real { if s == [] then 0.0 else SumDt(s[..|s| - 1]) + s[|s| - 1].dt }

  function SumNDt(s: seq<Sample>): real {
    if s == [] then 0.0 else SumNDt(s[..|s| - 1]) + s[|s| - 1].n as real * s[|s| - 1].dt
  }

  predicate TwoSizes(s: seq<Sample>) {
    exists i, j :: 0 <= i < j < |s| && s[i].n != s[j].n
  }

  /** count * sum(n^2) - sum(n)^2, the denominator of the slope. */
  function Spread(s: seq<Sample>): int {
    |s| * SumNN(s) - SumN(s) * SumN(s)
  }

  /** sum over i of (n_i - x)^2, expanded. */
  function Deviation(s: seq<Sample>, x: int): int {
    SumNN(s) - 2 * x * SumN(s) + |s| * x * x
  }

  lemma {:induction false} DeviationIsSumOfSquares(s: seq<Sample>, x: int)
    ensures Deviation(s, x) >= 0
    ensures Deviation(s, x) > 0 <==> exists i :: 0 <= i < |s| && s[i].n != x
  {
    if s != [] {
      var m, l := s[..|s| - 1], s[|s| - 1].n;
      DeviationIsSumOfSquares(m, x);
      var d := l - x;
      assert Deviation(s, x) == Deviation(m, x) + d * d by {
        assert (|m| + 1) * x * x == |m| * x * x + x * x;
        assert d * d == l * l - 2 * x * l + x * x;
        assert 2 * x * (SumN(m) + l) == 2 * x * SumN(m) + 2 * x * l;
      }
      assert d * d >= 0 && (d != 0 ==> d * d > 0);
      assert forall i :: 0 <= i < |m| ==> s[i] == m[i];
      if i :| 0 <= i < |s| && s[i].n != x {
        assert i < |m| ==> m[i].n != x;
      }
    }
  }

  /** The slope's denominator is a sum of squared differences: it is positive
      exactly when two distinct chunk sizes were observed, so the guard of the fit
      never fires. */
  lemma {:induction false} DenominatorPositive(s: seq<Sample>)
    ensures Spread(s) >= 0
    ensures Spread(s) > 0 <==> TwoSizes(s)
  {
    if s != [] {
      var m, l := s[..|s| - 1], s[|s| - 1].n;
      DenominatorPositive(m);
      DeviationIsSumOfSquares(m, l);
      SpreadStep(s);
      if i, j :| 0 <= i < j < |s| && s[i].n != s[j].n {
        if j < |m| {
          assert 0 <= i < j < |m| && m[i].n != m[j].n;
        } else {
          assert 0 <= i < |m| && m[i].n != l;
        }
      } else {
        forall i | 0 <= i < |m| ensures m[i].n == l { assert s[i].n == s[|m|].n; }
        forall i, j | 0 <= i < j < |m| ensures m[i].n == m[j].n { }
      }
    }
  }

  lemma SpreadStep(s: seq<Sample>)
    requires s != []
    ensures Spread(s) == Spread(s[..|s| - 1]) + Deviation(s[..|s| - 1], s[|s| - 1].n)
  {
    var m, l := s[..|s| - 1], s[|s| - 1].n;
    var k, a, b := |m|, SumNN(m), SumN(m);
    assert (k + 1) * (a + l * l) == k * a + k * l * l + a + l * l;
    assert (b + l) * (b + l) == b * b + 2 * l * b + l * l;
  }

  // ----- the fit and the estimate -----

  function InsertReal(x: real, s: seq<real>): (r: seq<real>)
    ensures multiset(r) == multiset(s) + multiset{x}
  {
    if s == [] then [x]
    else if x <= s[0] then [x] + s
    else
      assert s == [s[0]] + s[1..];
      [s[0]] + InsertReal(x, s[1..])
  }

  function SortReals(s: seq<real>): (r: seq<real>)
    ensures multiset(r) == multiset(s)
    ensures |r| == |s|
  {
    if s == [] then []
    else
      assert s == [s[0]] + s[1..];
      var r := InsertReal(s[0], SortReals(s[1..]));
      assert |multiset(r)| == |multiset(s)|;
      r
  }

  /** What the line says of a sample, kept away from zero. */
  function Fitted(s: Sample, a: real, b: real): (e: real)
    ensures e > 0.0
  {
    MaxR(0.000001, a + b * s.n as real)
  }

  function Ratio(s: Sample, a: real, b: real): real { s.dt / Fitted(s, a, b) }

  function Ratios(mixed: seq<Sample>, a: real, b: real): (r: seq<real>)
    ensures |r| == |mixed| && forall i :: 0 <= i < |r| ==> r[i] == Ratio(mixed[i], a, b)
  {
    seq(|mixed|, i requires 0 <= i < |mixed| => Ratio(mixed[i], a, b))
  }

  /** Conservative scale: 75th percentile of actual/fit on mixed samples, or 1.1
      before any mixed sample, clamped to [1, 1.5]. */
  function Scale(mixed: seq<Sample>, a: real, b: real): (r: real)
    ensures 1.0 <= r <= 1.5
  {
    var q := if mixed == [] then 1.1
             else SortReals(Ratios(mixed, a, b))[Min(|mixed| - 1, 3 * |mixed| / 4)];
    MinR(1.5, MaxR(1.0, q))
  }

  datatype Line = Line(fixed: real, perToken: real)

  /** The samples the fit looks at. */
  function FitPoints(mixed: seq<Sample>, solo: seq<Sample>): seq<Sample> {
    Last(mixed, FIT_WINDOW) + Last(solo, FIT_WINDOW)
  }

  /** Slope and intercept by the closed form, each clamped at zero. */
  function Closed(cnt: real, sx: real, sy: real, sxy: real, den: real): (l: Line)
    requires cnt > 0.0
    ensures l.fixed >= 0.0 && l.perToken >= 0.0
  {
    var b := if den > 0.0 then MaxR(0.0, (cnt * sxy - sx * sy) / den) else 0.0;
    Line(MaxR(0.0, (sy - b * sx) / cnt), b)
  }

  /** The line through the points before scaling. */
  function RawLine(pts: seq<Sample>): (l: Line)
    requires TwoSizes(pts)
    ensures l.fixed >= 0.0 && l.perToken >= 0.0
  {
    Closed(|pts| as real, SumN(pts) as real, SumDt(pts), SumNDt(pts), Spread(pts) as real)
  }

  /** `_cost_model`: dt = a + b*n, scaled; None until two sizes were seen. */
  function Fit(mixed: seq<Sample>, solo: seq<Sample>): (r: Option<Line>)
    ensures r.Some? ==> r.value.fixed >= 0.0 && r.value.perToken >= 0.0
    ensures r.Some? <==> TwoSizes(FitPoints(mixed, solo))
  {
    var pts := FitPoints(mixed, solo);
    if !TwoSizes(pts) then None
    else
      var l := RawLine(pts);
      var r := Scale(Last(mixed, FIT_WINDOW), l.fixed, l.perToken);
      ProductNonNegative(l.fixed, r);
      ProductNonNegative(l.perToken, r);
      Some(Line(l.fixed * r, l.perToken * r))
  }

  lemma ProductNonNegative(a: real, b: real)
    requires a >= 0.0 && b >= 0.0
    ensures a * b >= 0.0
  {
  }

  // ----- the estimate -----

  /** What `_est_dt` reads: the fitted line, if any, and the recent mixed samples. */
  datatype CostModel = CostModel(fit: Option<Line>, recent: seq<Sample>)

  predicate ValidModel(m: CostModel) {
    ValidSamples(m.recent) && (m.fit.Some? ==> m.fit.value.fixed >= 0.0 && m.fit.value.perToken >= 0.0)
  }

  function ModelOf(mixed: seq<Sample>, solo: seq<Sample>): (m: CostModel)
    requires ValidSamples(mixed)
    ensures ValidModel(m)
  {
    CostModel(Fit(mixed, solo), Last(mixed, 8))
  }

  /** dt * max(0.5, n / t) for one sample of t tokens. */
  function Proportional(s: Sample, n: nat): real {
    s.dt * MaxR(0.5, n as real / Max(1, s.n) as real)
  }

  /** The largest estimate over the recent samples. */
  function MaxOver(estimate: Sample -> real, recent: seq<Sample>): real {
    if recent == [] then 0.0 else MaxR(MaxOver(estimate, recent[1..]), estimate(recent[0]))
  }

  function Linear(recent: seq<Sample>, n: nat): real {
    MaxOver((s: Sample) => Proportional(s, n), recent)
  }

  function Affine(l: Line, n: nat): real { l.fixed + l.perToken * n as real }

  /** `_est_dt`: seconds a step serving `tokens` prompt tokens is expected to take. */
  function Estimate(m: CostModel, tokens: int): real
    requires ValidModel(m)
  {
    var n := Max(1, tokens);
    if m.fit.Some? then MaxR(0.01, Affine(m.fit.value, n))
    else if m.recent != [] then MaxR(0.01, Linear(m.recent, n))
    else MaxR(0.05, n as real / COLD_TOK_S)
  }

  lemma MulMono(a: real, x: real, y: real)
    requires a >= 0.0 && x <= y
    ensures a * x <= a * y
  {
  }

  lemma DivMono(x: real, y: real, t: real)
    requires t > 0.0 && x <= y
    ensures x / t <= y / t
  {
  }

  lemma ProportionalMonotone(s: Sample, m: nat, n: nat)
    requires s.n >= 1 && s.dt > 0.0 && m <= n
    ensures Proportional(s, m) <= Proportional(s, n)
  {
    DivMono(m as real, n as real, s.n as real);
    MulMono(s.dt, MaxR(0.5, m as real / s.n as real), MaxR(0.5, n as real / s.n as real));
  }

  lemma {:induction false} MaxOverMonotone(f: Sample -> real, g: Sample -> real, recent: seq<Sample>)
    requires forall s :: s in recent ==> f(s) <= g(s)
    ensures MaxOver(f, recent) <= MaxOver(g, recent)
  {
    if recent != [] {
      MaxOverMonotone(f, g, recent[1..]);
    }
  }

  lemma LinearMonotone(recent: seq<Sample>, m: nat, n: nat)
    requires ValidSamples(recent) && m <= n
    ensures Linear(recent, m) <= Linear(recent, n)
  {
    forall s | s in recent ensures Proportional(s, m) <= Proportional(s, n) {
      ProportionalMonotone(s, m, n);
    }
    MaxOverMonotone((s: Sample) => Proportional(s, m), (s: Sample) => Proportional(s, n), recent);
  }

  lemma AffineMonotone(l: Line, m: nat, n: nat)
    requires l.perToken >= 0.0 && m <= n
    ensures Affine(l, m) <= Affine(l, n)
  {
    MulMono(l.perToken, m as real, n as real);
  }

  /** A larger chunk is never estimated cheaper, and no estimate is below 10 ms. */
  lemma EstimateMonotone(c: CostModel, m: int, n: int)
    requires ValidModel(c) && m <= n
    ensures 0.01 <= Estimate(c, m) <= Estimate(c, n)
  {
    var x, y := Max(1, m), Max(1, n);
    if c.fit.Some? {
      AffineMonotone(c.fit.value, x, y);
    } else if c.recent != [] {
      LinearMonotone(c.recent, x, y);
    } else {
      DivMono(x as real, y as real, COLD_TOK_S);
    }
  }

  /** x * big <= y * small, for x <= y, survives a common floor on both estimates. */
  lemma Floored(floor: real, big: real, small: real, x: real, y: real)
    requires 0.0 <= x <= y && floor >= 0.0
    requires x * big <= y * small
    ensures x * MaxR(floor, big) <= y * MaxR(floor, small)
  {
    MulMono(floor, x, y);
    MulMono(y, floor, MaxR(floor, small));
    MulMono(y, small, MaxR(floor, small));
  }

  lemma CrossDivide(x: real, y: real, t: real)
    requires t > 0.0
    ensures x * (y / t) == y * (x / t)
  {
  }

  lemma Swap(x: real, d: real, f: real)
    ensures x * (d * f) == d * (x * f)
  {
  }

  /** `n` serves at least as many tokens per estimated second as `m`: m/est(m) <=
      n/est(n), cross-multiplied. */
  predicate AsEfficient(m: nat, estM: real, n: nat, estN: real) {
    m as real * estN <= n as real * estM
  }

  lemma ProportionalPerToken(s: Sample, m: nat, n: nat)
    requires s.n >= 1 && s.dt > 0.0 && 1 <= m <= n
    ensures AsEfficient(m, Proportional(s, m), n, Proportional(s, n))
  {
    var x, y, t := m as real, n as real, s.n as real;
    CrossDivide(x, y, t);
    Floored(0.5, y / t, x / t, x, y);
    MulMono(s.dt, x * MaxR(0.5, y / t), y * MaxR(0.5, x / t));
    Swap(x, s.dt, MaxR(0.5, y / t));
    Swap(y, s.dt, MaxR(0.5, x / t));
  }

  lemma {:induction false} MaxOverBounds(f: Sample -> real, recent: seq<Sample>)
    ensures forall s :: s in recent ==> f(s) <= MaxOver(f, recent)
  {
    if recent != [] {
      MaxOverBounds(f, recent[1..]);
    }
  }

  lemma {:induction false} MaxOverAttained(f: Sample -> real, recent: seq<Sample>) returns (s: Sample)
    requires recent != [] && forall s :: s in recent ==> f(s) > 0.0
    ensures s in recent && MaxOver(f, recent) == f(s)
  {
    s := recent[0];
    if recent[1..] != [] {
      var r := MaxOverAttained(f, recent[1..]);
      s := if MaxOver(f, recent[1..]) < f(recent[0]) then recent[0] else r;
    }
  }

  lemma ProportionalPositive(s: Sample, n: nat)
    requires s.n >= 1 && s.dt > 0.0
    ensures Proportional(s, n) > 0.0
  {
    MulMono(s.dt, 0.5, MaxR(0.5, n as real / Max(1, s.n) as real));
  }

  lemma LinearPerToken(recent: seq<Sample>, m: nat, n: nat)
    requires ValidSamples(recent) && 1 <= m <= n && recent != []
    ensures AsEfficient(m, Linear(recent, m), n, Linear(recent, n))
  {
    var g := (s: Sample) => Proportional(s, n);
    forall s | s in recent ensures g(s) > 0.0 { ProportionalPositive(s, n); }
    var s := MaxOverAttained(g, recent);
    MaxOverBounds((s: Sample) => Proportional(s, m), recent);
    ProportionalPerToken(s, m, n);
    Chain(m, Proportional(s, m), Linear(recent, m), n, Proportional(s, n));
  }

  lemma Chain(m: nat, estM: real, larger: real, n: nat, estN: real)
    requires AsEfficient(m, estM, n, estN) && estM <= larger
    ensures AsEfficient(m, larger, n, estN)
  {
    MulMono(n as real, estM, larger);
  }

  lemma AffinePerToken(l: Line, x: real, y: real)
    requires l.fixed >= 0.0 && x <= y
    ensures x * (l.fixed + l.perToken * y) <= y * (l.fixed + l.perToken * x)
  {
    MulMono(l.fixed, x, y);
    assert x * (l.perToken * y) == y * (l.perToken * x);
  }

  lemma FittedPerToken(l: Line, m: nat, n: nat)
    requires l.fixed >= 0.0 && 1 <= m <= n
    ensures AsEfficient(m, MaxR(0.01, Affine(l, m)), n, MaxR(0.01, Affine(l, n)))
  {
    AffinePerToken(l, m as real, n as real);
    Floored(0.01, Affine(l, n), Affine(l, m), m as real, n as real);
  }

  lemma RecentPerToken(recent: seq<Sample>, m: nat, n: nat)
    requires ValidSamples(recent) && 1 <= m <= n && recent != []
    ensures AsEfficient(m, MaxR(0.01, Linear(recent, m)), n, MaxR(0.01, Linear(recent, n)))
  {
    LinearPerToken(recent, m, n);
    Floored(0.01, Linear(recent, n), Linear(recent, m), m as real, n as real);
  }

  lemma ColdPerToken(m: nat, n: nat)
    requires 1 <= m <= n
    ensures AsEfficient(m, MaxR(0.05, m as real / COLD_TOK_S), n, MaxR(0.05, n as real / COLD_TOK_S))
  {
    CrossDivide(m as real, n as real, COLD_TOK_S);
    Floored(0.05, n as real / COLD_TOK_S, m as real / COLD_TOK_S, m as real, n as real);
  }

  /** Under a fixed per-step cost the larger of two chunks is never less efficient. */
  lemma LargerIsMoreEfficient(c: CostModel, m: nat, n: nat)
    requires ValidModel(c) && 1 <= m <= n
    ensures AsEfficient(m, Estimate(c, m), n, Estimate(c, n))
  {
    match c.fit
    case Some(l) => FittedPerToken(l, m, n);
    case None => if c.recent != [] { RecentPerToken(c.recent, m, n); } else { ColdPerToken(m, n); }
  }

  // ----- the ladder target -----

  datatype Pick = Pick(tokens: nat, cost: real)

  /** The rungs `_target` considers, each clipped to the remaining tokens. */
  function Rungs(c: CostModel, chunk: nat, remaining: Option<nat>): (r: seq<nat>)
    ensures chunk >= 1 && (remaining.Some? ==> remaining.value >= 1) ==>
              forall n :: n in r ==> n >= 1 && (remaining.Some? ==> n <= remaining.value)
  {
    var base := if c.recent != [] || c.fit.Some? then [chunk] + LADDER else [chunk];
    seq(|base|, i requires 0 <= i < |base| => if remaining.Some? && remaining.value < base[i] then remaining.value else base[i])
  }

  /** The last of the ascending rungs whose estimate fits: the largest one. */
  function Best(c: CostModel, rungs: seq<nat>, room: real): (r: Option<Pick>)
    requires ValidModel(c)
    ensures r.Some? ==> r.value.tokens in rungs && r.value.cost == Estimate(c, r.value.tokens) <= room + TOL
    ensures forall n :: n in rungs && Estimate(c, n) <= room + TOL ==> r.Some? && n <= r.value.tokens
  {
    if rungs == [] then None
    else
      var rest := Best(c, rungs[1..], room);
      var cost := Estimate(c, rungs[0]);
      if cost <= room + TOL && (rest.None? || rest.value.tokens < rungs[0]) then Some(Pick(rungs[0], cost)) else rest
  }

  /** `_target`: the largest rung whose estimated step fits the room. */
  function Target(c: CostModel, chunk: nat, remaining: Option<nat>, room: real): Option<Pick>
    requires ValidModel(c)
  {
    Best(c, Rungs(c, chunk, remaining), room)
  }

  /** If any rung fits, the target is within the room and the remaining prompt, and
      no fitting rung serves more tokens per estimated second. */
  lemma TargetIsMostEfficient(c: CostModel, chunk: nat, remaining: Option<nat>, room: real, n: nat)
    requires ValidModel(c) && chunk >= 1 && (remaining.Some? ==> remaining.value >= 1)
    requires n in Rungs(c, chunk, remaining) && Estimate(c, n) <= room + TOL
    ensures var t := Target(c, chunk, remaining, room);
            t.Some? && n <= t.value.tokens && t.value.cost <= room + TOL
            && (remaining.Some? ==> t.value.tokens <= remaining.value)
            && AsEfficient(n, Estimate(c, n), t.value.tokens, t.value.cost)
  {
    var t := Target(c, chunk, remaining, room);
    LargerIsMoreEfficient(c, n, t.value.tokens);
  }

  lemma TargetCost(c: CostModel, chunk: nat, remaining: Option<nat>, room: real)
    requires ValidModel(c)
    ensures var t := Target(c, chunk, remaining, room);
            t.Some? ==> 0.01 <= t.value.cost <= room + TOL
  {
    var t := Target(c, chunk, remaining, room);
    if t.Some? {
      EstimateMonotone(c, t.value.tokens, t.value.tokens);
    }
  }
}
