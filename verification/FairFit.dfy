/** What the step-cost line of the fair mixed-prefill policy means: least squares, scaled
    so that most of the recent mixed steps are not underestimated. */
module FairFit {
  import opened Common
  import opened FairCost

  // ----- least squares -----

  function Residual(s: Sample, l: Line): real { s.dt - (l.fixed + l.perToken * s.n as real) }

  function ResidualOf(l: Line): Sample -> real { (s: Sample) => Residual(s, l) }

  function Plain(res: Sample -> real, pts: seq<Sample>): real {
    if pts == [] then 0.0 else Plain(res, pts[..|pts| - 1]) + res(pts[|pts| - 1])
  }

  /** Weighted by the chunk sizes. */
  function Moment(res: Sample -> real, pts: seq<Sample>): real {
    if pts == [] then 0.0 else Moment(res, pts[..|pts| - 1]) + pts[|pts| - 1].n as real * res(pts[|pts| - 1])
  }

  function Squares(res: Sample -> real, pts: seq<Sample>): real {
    if pts == [] then 0.0 else Squares(res, pts[..|pts| - 1]) + res(pts[|pts| - 1]) * res(pts[|pts| - 1])
  }

  /** Sum of the squared residuals of a line. */
  function Error(pts: seq<Sample>, l: Line): real { Squares(ResidualOf(l), pts) }

  /** What is left of a total after the line's share. */
  function Left(total: real, a: real, weight: real, b: real, slopeWeight: real): real { total - a * weight - b * slopeWeight }

  lemma LeftAdds(t: real, u: real, a: real, w: real, x: real, b: real, v: real, y: real)
    ensures Left(t + u, a, w + x, b, v + y) == Left(t, a, w, b, v) + Left(u, a, x, b, y)
  {
    assert a * (w + x) == a * w + a * x && b * (v + y) == b * v + b * y;
  }

  lemma {:induction false} ResidualsAre(pts: seq<Sample>, l: Line)
    ensures Plain(ResidualOf(l), pts) == Left(SumDt(pts), l.fixed, |pts| as real, l.perToken, SumN(pts) as real)
  {
    if pts != [] {
      var m, s := pts[..|pts| - 1], pts[|pts| - 1];
      ResidualsAre(m, l);
      LeftAdds(SumDt(m), s.dt, l.fixed, |m| as real, 1.0, l.perToken, SumN(m) as real, s.n as real);
    }
  }

  /** One more point, in plain arithmetic. */
  lemma MomentStep(before: real, total: real, n: real, dt: real, a: real, sx: real, b: real, sxx: real)
    requires before == Left(total, a, sx, b, sxx)
    ensures before + n * (dt - (a + b * n)) == Left(total + n * dt, a, sx + n, b, sxx + n * n)
  {
    LeftAdds(total, n * dt, a, sx, n, b, sxx, n * n);
    assert n * (dt - (a + b * n)) == n * dt - a * n - b * (n * n);
  }

  lemma SumsGrow(pts: seq<Sample>)
    requires pts != []
    ensures var m, n := pts[..|pts| - 1], pts[|pts| - 1].n as real;
            SumN(pts) as real == SumN(m) as real + n && SumNN(pts) as real == SumNN(m) as real + n * n
  {
    CastProduct(pts[|pts| - 1].n, pts[|pts| - 1].n);
  }

  lemma {:induction false} MomentsAre(pts: seq<Sample>, l: Line)
    ensures Moment(ResidualOf(l), pts) == Left(SumNDt(pts), l.fixed, SumN(pts) as real, l.perToken, SumNN(pts) as real)
  {
    if pts != [] {
      var m, s := pts[..|pts| - 1], pts[|pts| - 1];
      MomentsAre(m, l);
      SumsGrow(pts);
      MomentStep(Moment(ResidualOf(l), m), SumNDt(m), s.n as real, s.dt, l.fixed, SumN(m) as real, l.perToken, SumNN(m) as real);
    }
  }

  lemma CastProduct(x: int, y: int)
    ensures (x * y) as real == x as real * y as real
  {
  }

  function Shift(l: Line, da: real, db: real): Line { Line(l.fixed + da, l.perToken + db) }

  lemma ResidualOfShift(s: Sample, l: Line, da: real, db: real)
    ensures ResidualOf(Shift(l, da, db))(s) == ResidualOf(l)(s) - (da + db * s.n as real)
  {
    var n := s.n as real;
    assert (l.perToken + db) * n == l.perToken * n + db * n;
  }

  /** One more point under a shift, in plain arithmetic. */
  lemma ShiftStep(before: real, after: real, r: real, n: real, sum: real, moment: real, da: real, db: real)
    requires after >= before - 2.0 * (da * sum + db * moment)
    ensures var e := da + db * n;
            after + (r - e) * (r - e) >= before + r * r - 2.0 * (da * (sum + r) + db * (moment + n * r))
  {
    var e := da + db * n;
    Square(r, e);
    assert r * e == da * r + db * (n * r) by { assert r * (db * n) == db * (n * r); }
    assert da * (sum + r) == da * sum + da * r;
    assert db * (moment + n * r) == db * moment + db * (n * r);
  }

  lemma Square(r: real, e: real)
    ensures (r - e) * (r - e) >= r * r - 2.0 * (r * e)
  {
    assert (r - e) * (r - e) == r * r - 2.0 * (r * e) + e * e;
  }

  predicate Shifted(res: Sample -> real, moved: Sample -> real, da: real, db: real, s: Sample) {
    moved(s) == res(s) - (da + db * s.n as real)
  }

  /** Moving the line changes the error by a linear term and a non-negative rest. */
  lemma {:induction false} SquaresOfShift(pts: seq<Sample>, res: Sample -> real, moved: Sample -> real, da: real, db: real)
    requires forall s :: Shifted(res, moved, da, db, s)
    ensures Squares(moved, pts) >= Squares(res, pts) - 2.0 * (da * Plain(res, pts) + db * Moment(res, pts))
  {
    if pts != [] {
      var m, s := pts[..|pts| - 1], pts[|pts| - 1];
      SquaresOfShift(m, res, moved, da, db);
      assert Shifted(res, moved, da, db, s);
      ShiftStep(Squares(res, m), Squares(moved, m), res(s), s.n as real, Plain(res, m), Moment(res, m), da, db);
    }
  }

  /** One more point under a lift, in plain arithmetic. */
  lemma LiftStep(before: real, after: real, r: real, sum: real, count: real, da: real)
    requires after == before - 2.0 * (da * sum) + count * (da * da)
    ensures after + (r - da) * (r - da) == before + r * r - 2.0 * (da * (sum + r)) + (count + 1.0) * (da * da)
  {
    assert (r - da) * (r - da) == r * r - 2.0 * (da * r) + da * da;
    assert da * (sum + r) == da * sum + da * r;
    assert (count + 1.0) * (da * da) == count * (da * da) + da * da;
  }

  predicate Lifted(res: Sample -> real, moved: Sample -> real, da: real, s: Sample) { moved(s) == res(s) - da }

  /** Raising or lowering the line alone. */
  lemma {:induction false} SquaresOfLift(pts: seq<Sample>, res: Sample -> real, moved: Sample -> real, da: real)
    requires forall s :: Lifted(res, moved, da, s)
    ensures Squares(moved, pts) == Squares(res, pts) - 2.0 * (da * Plain(res, pts)) + |pts| as real * (da * da)
  {
    if pts != [] {
      var m, s := pts[..|pts| - 1], pts[|pts| - 1];
      SquaresOfLift(m, res, moved, da);
      assert Lifted(res, moved, da, s);
      LiftStep(Squares(res, m), Squares(moved, m), res(s), Plain(res, m), |m| as real, da);
      assert |pts| as real == |m| as real + 1.0;
    }
  }

  lemma Quotient(x: real, d: real)
    requires d > 0.0
    ensures x / d * d == x && (x >= 0.0 <==> x / d >= 0.0)
  {
  }

  // ----- the closed form -----

  predicate Kept(slope: real, sx: real, sy: real) { slope * sx <= sy }

  /** The intercept before clamping is not negative. */
  predicate InterceptKept(pts: seq<Sample>)
    requires TwoSizes(pts)
  {
    Kept(RawLine(pts).perToken, SumN(pts) as real, SumDt(pts))
  }

  predicate IsSpread(den: real, cnt: real, sx: real, sxx: real) { den == cnt * sxx - sx * sx }

  /** The closed form in plain arithmetic: with the intercept kept the residuals cancel,
      and their moments cancel too unless the slope was clamped, where they are not
      positive. */
  lemma ClosedForm(cnt: real, sx: real, sxx: real, sy: real, sxy: real, den: real)
    requires cnt > 0.0 && den > 0.0 && IsSpread(den, cnt, sx, sxx)
    ensures var l := Closed(cnt, sx, sy, sxy, den);
            if Kept(l.perToken, sx, sy)
            then Left(sy, l.fixed, cnt, l.perToken, sx) == 0.0 && Left(sxy, l.fixed, sx, l.perToken, sxx) <= 0.0
                 && (l.perToken > 0.0 ==> Left(sxy, l.fixed, sx, l.perToken, sxx) == 0.0)
            else Left(sy, l.fixed, cnt, l.perToken, sx) < 0.0
  {
    var top := cnt * sxy - sx * sy;
    var l := Closed(cnt, sx, sy, sxy, den);
    Quotient(top, den);
    Quotient(sy - l.perToken * sx, cnt);
    if Kept(l.perToken, sx, sy) {
      assert l.fixed * cnt == sy - l.perToken * sx;
      CenteredMoments(cnt, sx, sxx, sy, sxy, l.fixed, l.perToken);
      SignOfFactor(cnt, Left(sxy, l.fixed, sx, l.perToken, sxx));
    } else {
      assert l.fixed == 0.0;
    }
  }

  lemma SignOfFactor(count: real, x: real)
    requires count > 0.0
    ensures (count * x == 0.0 ==> x == 0.0) && (count * x <= 0.0 ==> x <= 0.0)
  {
  }

  /** Moments about the mean. */
  lemma CenteredMoments(cnt: real, sx: real, sxx: real, sy: real, sxy: real, a: real, b: real)
    requires a * cnt == sy - b * sx
    ensures cnt * Left(sxy, a, sx, b, sxx) == cnt * sxy - sx * sy - b * (cnt * sxx - sx * sx)
  {
    assert cnt * (a * sx) == (a * cnt) * sx;
    assert (sy - b * sx) * sx == sx * sy - b * (sx * sx);
    assert cnt * (b * sxx) == b * (cnt * sxx);
    assert b * (cnt * sxx - sx * sx) == b * (cnt * sxx) - b * (sx * sx);
    assert cnt * (sxy - a * sx - b * sxx) == cnt * sxy - cnt * (a * sx) - cnt * (b * sxx);
  }

  lemma SpreadIs(pts: seq<Sample>)
    ensures IsSpread(Spread(pts) as real, |pts| as real, SumN(pts) as real, SumNN(pts) as real)
  {
    var n, sx, sxx := |pts|, SumN(pts), SumNN(pts);
    CastProduct(n, sxx);
    CastProduct(sx, sx);
    assert (n * sxx - sx * sx) as real == (n * sxx) as real - (sx * sx) as real;
  }

  lemma LineFacts(pts: seq<Sample>)
    requires TwoSizes(pts)
    ensures var l, cnt, sx, sy := RawLine(pts), |pts| as real, SumN(pts) as real, SumDt(pts);
            if InterceptKept(pts)
            then Left(sy, l.fixed, cnt, l.perToken, sx) == 0.0 && Left(SumNDt(pts), l.fixed, sx, l.perToken, SumNN(pts) as real) <= 0.0
                 && (l.perToken > 0.0 ==> Left(SumNDt(pts), l.fixed, sx, l.perToken, SumNN(pts) as real) == 0.0)
            else Left(sy, l.fixed, cnt, l.perToken, sx) < 0.0
  {
    DenominatorPositive(pts);
    SpreadIs(pts);
    ClosedForm(|pts| as real, SumN(pts) as real, SumNN(pts) as real, SumDt(pts), SumNDt(pts), Spread(pts) as real);
  }

  lemma NormalEquations(pts: seq<Sample>)
    requires TwoSizes(pts)
    ensures var l := RawLine(pts);
            if InterceptKept(pts)
            then Plain(ResidualOf(l), pts) == 0.0 && Moment(ResidualOf(l), pts) <= 0.0
                 && (l.perToken > 0.0 ==> Moment(ResidualOf(l), pts) == 0.0)
            else Plain(ResidualOf(l), pts) < 0.0
  {
    LineFacts(pts);
    ResidualsAre(pts, RawLine(pts));
    MomentsAre(pts, RawLine(pts));
  }

  /** No line of non-negative slope has a smaller squared error. */
  ghost predicate IsLeastSquares(pts: seq<Sample>, l: Line) {
    forall other: Line :: other.perToken >= 0.0 ==> Error(pts, other) >= Error(pts, l)
  }

  /** Main theorem. The line is the least-squares line among those of non-negative slope
      if and only if its intercept was not clamped at zero. */
  lemma LeastSquaresExactlyWhen(pts: seq<Sample>)
    requires TwoSizes(pts)
    ensures IsLeastSquares(pts, RawLine(pts)) <==> InterceptKept(pts)
  {
    if InterceptKept(pts) {
      forall other: Line | other.perToken >= 0.0 ensures Error(pts, other) >= Error(pts, RawLine(pts)) { NotBetter(pts, other); }
    } else {
      var better := ClampedIsWorse(pts);
    }
  }

  lemma NotBetter(pts: seq<Sample>, other: Line)
    requires TwoSizes(pts) && InterceptKept(pts) && other.perToken >= 0.0
    ensures Error(pts, other) >= Error(pts, RawLine(pts))
  {
    var l := RawLine(pts);
    var da, db := other.fixed - l.fixed, other.perToken - l.perToken;
    assert Shift(l, da, db) == other;
    NormalEquations(pts);
    forall s ensures Shifted(ResidualOf(l), ResidualOf(other), da, db, s) { ResidualOfShift(s, l, da, db); }
    SquaresOfShift(pts, ResidualOf(l), ResidualOf(other), da, db);
    LinearTerm(da, db, Plain(ResidualOf(l), pts), Moment(ResidualOf(l), pts), l.perToken);
  }

  lemma LinearTerm(da: real, db: real, sum: real, moment: real, slope: real)
    requires sum == 0.0 && moment <= 0.0 && slope >= 0.0 && slope + db >= 0.0 && (slope > 0.0 ==> moment == 0.0)
    ensures da * sum + db * moment <= 0.0
  {
    if slope == 0.0 {
      assert db >= 0.0;
    }
  }

  lemma ClampedIsWorse(pts: seq<Sample>) returns (better: Line)
    requires TwoSizes(pts) && !InterceptKept(pts)
    ensures better.perToken >= 0.0 && Error(pts, better) < Error(pts, RawLine(pts))
  {
    NormalEquations(pts);
    better := LiftedLine(pts, RawLine(pts));
  }

  /** A line whose residuals sum below zero is improved by lowering it. */
  lemma LiftedLine(pts: seq<Sample>, l: Line) returns (better: Line)
    requires pts != [] && Plain(ResidualOf(l), pts) < 0.0
    ensures better.perToken == l.perToken && Error(pts, better) < Error(pts, l)
  {
    var da := MeanResidual(Plain(ResidualOf(l), pts), |pts| as real);
    better := Shift(l, da, 0.0);
    forall s ensures Lifted(ResidualOf(l), ResidualOf(better), da, s) { ResidualOfShift(s, l, da, 0.0); }
    LiftHelps(pts, ResidualOf(l), ResidualOf(better), da);
  }

  lemma LiftHelps(pts: seq<Sample>, res: Sample -> real, moved: Sample -> real, da: real)
    requires Plain(res, pts) < 0.0 && da < 0.0 && da * |pts| as real == Plain(res, pts)
    requires forall s :: Lifted(res, moved, da, s)
    ensures Squares(moved, pts) < Squares(res, pts)
  {
    SquaresOfLift(pts, res, moved, da);
    MeanLift(Squares(res, pts), Squares(moved, pts), Plain(res, pts), |pts| as real, da);
  }

  lemma MeanResidual(r: real, cnt: real) returns (da: real)
    requires cnt > 0.0 && r < 0.0
    ensures da < 0.0 && da * cnt == r
  {
    da := r / cnt;
  }

  lemma MeanLift(before: real, after: real, r: real, cnt: real, da: real)
    requires r < 0.0 && da < 0.0 && da * cnt == r && after == before - 2.0 * (da * r) + cnt * (da * da)
    ensures after < before
  {
    assert cnt * (da * da) == da * (da * cnt) == da * r;
    assert da * r > 0.0;
  }

  lemma SumsOfTwo(a: Sample, b: Sample)
    ensures var pts := [a, b];
            && SumN(pts) == a.n + b.n && SumNN(pts) == a.n * a.n + b.n * b.n
            && SumDt(pts) == a.dt + b.dt && SumNDt(pts) == a.n as real * a.dt + b.n as real * b.dt
  {
    assert [a, b][..1] == [a] && [a][..0] == [];
    assert SumN([a]) == a.n && SumNN([a]) == a.n * a.n && SumDt([a]) == a.dt && SumNDt([a]) == a.n as real * a.dt;
  }

  /** Two steps of 1 and 2 tokens in 1 and 10 seconds: the closed form keeps the slope 9
      and clamps the intercept -8, so it misses both samples that 9n - 8 meets. */
  lemma SteepSamplesAreClamped()
    ensures var pts := [Sample(1, 1.0), Sample(2, 10.0)];
            && TwoSizes(pts) && !InterceptKept(pts) && RawLine(pts) == Line(0.0, 9.0)
            && Error(pts, Line(0.0, 9.0)) == 128.0 && Error(pts, Line(-8.0, 9.0)) == 0.0
  {
    var a, b := Sample(1, 1.0), Sample(2, 10.0);
    var pts := [a, b];
    assert pts[0].n != pts[1].n;
    SumsOfTwo(a, b);
    assert SumN(pts) == 3 && SumNN(pts) == 5 && SumDt(pts) == 11.0 && SumNDt(pts) == 21.0 && Spread(pts) == 1;
    assert Closed(2.0, 3.0, 11.0, 21.0, 1.0) == Line(0.0, 9.0);
    SquaresOfTwo(a, b, Line(0.0, 9.0));
    SquaresOfTwo(a, b, Line(-8.0, 9.0));
  }

  lemma SquaresOfTwo(a: Sample, b: Sample, l: Line)
    ensures Error([a, b], l) == Residual(a, l) * Residual(a, l) + Residual(b, l) * Residual(b, l)
  {
    assert [a, b][..1] == [a] && [a][..0] == [];
    assert Squares(ResidualOf(l), [a]) == Residual(a, l) * Residual(a, l);
  }

  // ----- the scale -----

  function CountAtMost(s: seq<real>, q: real): nat {
    if s == [] then 0 else (if s[0] <= q then 1 else 0) + CountAtMost(s[1..], q)
  }

  lemma {:induction false} InsertCounts(x: real, s: seq<real>, q: real)
    ensures CountAtMost(InsertReal(x, s), q) == (if x <= q then 1 else 0) + CountAtMost(s, q)
  {
    if s != [] {
      if x <= s[0] {
        assert ([x] + s)[1..] == s;
      } else {
        var t := InsertReal(x, s[1..]);
        assert ([s[0]] + t)[1..] == t;
        InsertCounts(x, s[1..], q);
      }
    }
  }

  predicate Sorted(s: seq<real>) { forall i, j :: 0 <= i < j < |s| ==> s[i] <= s[j] }

  lemma {:induction false} InsertSortedReal(x: real, s: seq<real>)
    requires Sorted(s)
    ensures Sorted(InsertReal(x, s))
  {
    if s != [] && !(x <= s[0]) {
      var t := InsertReal(x, s[1..]);
      InsertSortedReal(x, s[1..]);
      forall j | 0 <= j < |t| ensures s[0] <= t[j] {
        assert t[j] in multiset(t);
        assert t[j] == x || t[j] in s[1..];
      }
    }
  }

  lemma {:induction false} SortCounts(s: seq<real>, q: real)
    ensures Sorted(SortReals(s)) && CountAtMost(SortReals(s), q) == CountAtMost(s, q)
  {
    if s != [] {
      SortCounts(s[1..], q);
      InsertSortedReal(s[0], SortReals(s[1..]));
      InsertCounts(s[0], SortReals(s[1..]), q);
    }
  }

  lemma {:induction false} PrefixCounts(s: seq<real>, k: nat, q: real)
    requires k <= |s| && forall i :: 0 <= i < k ==> s[i] <= q
    ensures CountAtMost(s, q) >= k
  {
    if k > 0 {
      assert s[0] <= q;
      PrefixCounts(s[1..], k - 1, q);
    }
  }

  /** The sample took no longer than `r` times what the line says. */
  predicate Covered(s: Sample, l: Line, r: real) { s.dt <= r * Fitted(s, l.fixed, l.perToken) }

  function CountCovered(mixed: seq<Sample>, l: Line, r: real): nat {
    if mixed == [] then 0 else (if Covered(mixed[0], l, r) then 1 else 0) + CountCovered(mixed[1..], l, r)
  }

  lemma RatioCovers(s: Sample, l: Line, q: real, r: real)
    requires q <= r && Ratio(s, l.fixed, l.perToken) <= q
    ensures Covered(s, l, r)
  {
    var e := Fitted(s, l.fixed, l.perToken);
    Quotient(s.dt, e);
    MulMono(e, s.dt / e, r);
  }

  lemma RatiosTail(mixed: seq<Sample>, l: Line)
    requires mixed != []
    ensures Ratios(mixed, l.fixed, l.perToken)[1..] == Ratios(mixed[1..], l.fixed, l.perToken)
  {
    var x, y := Ratios(mixed, l.fixed, l.perToken)[1..], Ratios(mixed[1..], l.fixed, l.perToken);
    forall i | 0 <= i < |x| ensures x[i] == y[i] { assert mixed[1..][i] == mixed[i + 1]; }
  }

  lemma {:induction false} RatiosCover(mixed: seq<Sample>, l: Line, q: real, r: real)
    requires q <= r
    ensures CountCovered(mixed, l, r) >= CountAtMost(Ratios(mixed, l.fixed, l.perToken), q)
  {
    if mixed != [] {
      RatiosCover(mixed[1..], l, q, r);
      RatiosTail(mixed, l);
      if Ratio(mixed[0], l.fixed, l.perToken) <= q {
        RatioCovers(mixed[0], l, q, r);
      }
    }
  }

  lemma ThreeQuarters(n: nat)
    requires n > 0
    ensures var k := Min(n - 1, 3 * n / 4); 0 <= k < n && 4 * (k + 1) > 3 * n
  {
  }

  lemma ScaleIsPercentile(mixed: seq<Sample>, l: Line) returns (q: real)
    requires mixed != [] && Scale(mixed, l.fixed, l.perToken) < 1.5
    ensures q <= Scale(mixed, l.fixed, l.perToken)
    ensures q == SortReals(Ratios(mixed, l.fixed, l.perToken))[Min(|mixed| - 1, 3 * |mixed| / 4)]
  {
    q := SortReals(Ratios(mixed, l.fixed, l.perToken))[Min(|mixed| - 1, 3 * |mixed| / 4)];
  }

  lemma PercentileCounts(s: seq<real>, k: nat)
    requires k < |s|
    ensures CountAtMost(s, SortReals(s)[k]) >= k + 1
  {
    SortCounts(s, SortReals(s)[k]);
    PrefixCounts(SortReals(s), k + 1, SortReals(s)[k]);
  }

  /** Main theorem. Unless the scale sits at its ceiling, more than three quarters of the
      recent mixed samples took no longer than the scaled line says. */
  lemma ScaleCoversThreeQuarters(mixed: seq<Sample>, l: Line)
    requires mixed != [] && Scale(mixed, l.fixed, l.perToken) < 1.5
    ensures 4 * CountCovered(mixed, l, Scale(mixed, l.fixed, l.perToken)) > 3 * |mixed|
  {
    var q := ScaleIsPercentile(mixed, l);
    ThreeQuarters(|mixed|);
    PercentileCounts(Ratios(mixed, l.fixed, l.perToken), Min(|mixed| - 1, 3 * |mixed| / 4));
    RatiosCover(mixed, l, q, Scale(mixed, l.fixed, l.perToken));
  }
}
