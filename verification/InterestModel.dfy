// A lending pool and its per-block compound interest.

module InterestModel {
  import opened FixedPoint
  import opened Identifiers

  datatype Pool = Pool(
    enabled: bool,
    canBeCollateral: bool,
    asset: AssetId,
    supply: nat,
    debt: nat,
    safeFactor: nat,
    closeFactor: nat,
    discountFactor: nat,
    totalSupplyIndex: Index,
    totalDebtIndex: Index,
    lastUpdated: nat,
    utilizationFactor: nat,
    initialInterestRate: nat)

  function NewPool(id: AssetId, canBeCollateral: bool, now: nat): Pool {
    Pool(true, canBeCollateral, id, 0, 0,
         FromRational(7, 10), D, FromRational(95, 100),
         D, D, now,
         FromRational(385, 10_000_000_000), FromRational(385, 100_000_000_000))
  }

  // ---------- rates ----------

  function Utilization(p: Pool): nat
    requires p.supply > 0
  {
    FromRational(p.debt, p.supply)
  }

  function DebtRate(p: Pool): nat {
    if p.supply == 0 then p.initialInterestRate
    else p.initialInterestRate + Mul(p.utilizationFactor, Utilization(p))
  }

  function SupplyRate(p: Pool): nat {
    if p.supply == 0 then 0 else Mul(DebtRate(p), Utilization(p))
  }

  function SupplyMultiplier(p: Pool, t: nat): nat {
    D + Mul(SupplyRate(p), FromInteger(t))
  }

  function DebtMultiplier(p: Pool, t: nat): nat {
    D + Mul(DebtRate(p), FromInteger(t))
  }

  // ---------- accrual ----------

  /** Blocks since the last accrual. Blocks only advance, so the guard never bites in a run. */
  function Elapsed(p: Pool, now: nat): nat {
    if p.lastUpdated <= now then now - p.lastUpdated else 0
  }

  function EffectiveSupplyIndex(p: Pool, now: nat): (i: Index)
    ensures p.totalSupplyIndex <= i
  {
    Grows(SupplyMultiplier(p, Elapsed(p, now)), p.totalSupplyIndex);
    Mul(p.totalSupplyIndex, SupplyMultiplier(p, Elapsed(p, now)))
  }

  function EffectiveDebtIndex(p: Pool, now: nat): (i: Index)
    ensures p.totalDebtIndex <= i
  {
    Grows(DebtMultiplier(p, Elapsed(p, now)), p.totalDebtIndex);
    Mul(p.totalDebtIndex, DebtMultiplier(p, Elapsed(p, now)))
  }

  /** What `accrue_interest` leaves in the pool it is handed. */
  function Accrue(p: Pool, now: nat): Pool {
    if now <= p.lastUpdated then p
    else p.(supply := MulInt(SupplyMultiplier(p, Elapsed(p, now)), p.supply),
            totalSupplyIndex := EffectiveSupplyIndex(p, now),
            debt := MulInt(DebtMultiplier(p, Elapsed(p, now)), p.debt),
            totalDebtIndex := EffectiveDebtIndex(p, now),
            lastUpdated := now)
  }

  /** A record last touched at `index`, caught up to the pool's index. */
  datatype Record = Record(amount: nat, index: Index)

  function Grown(r: Record, index: Index): Record {
    Record(MulInt(Div(index, r.index), r.amount), index)
  }

  // ---------- facts about one accrual ----------

  /** The effective indices are those an accrual at that block stores; accruing again, or
      changing the totals of an up-to-date pool, moves neither of them. */
  lemma EffectiveIsAccrued(p: Pool, now: nat, supply: nat, debt: nat)
    requires p.lastUpdated <= now
    ensures Accrue(p, now).lastUpdated == now
    ensures Accrue(p, now).totalSupplyIndex == EffectiveSupplyIndex(p, now)
    ensures Accrue(p, now).totalDebtIndex == EffectiveDebtIndex(p, now)
    ensures var q := Accrue(p, now).(supply := supply, debt := debt);
            && Accrue(q, now) == q
            && EffectiveSupplyIndex(q, now) == EffectiveSupplyIndex(p, now)
            && EffectiveDebtIndex(q, now) == EffectiveDebtIndex(p, now)
  {
    MulOne(p.totalSupplyIndex);
    MulOne(p.totalDebtIndex);
    MulOne(EffectiveSupplyIndex(p, now));
    MulOne(EffectiveDebtIndex(p, now));
    var q := Accrue(p, now).(supply := supply, debt := debt);
    NoTimeNoGrowth(p);
    NoTimeNoGrowth(q);
  }

  /** The accrued pool in terms of the multipliers of the elapsed blocks; no parameter changes. */
  lemma AccruedFields(p: Pool, now: nat)
    requires p.lastUpdated <= now
    ensures var r, ms, md := Accrue(p, now), SupplyMultiplier(p, now - p.lastUpdated), DebtMultiplier(p, now - p.lastUpdated);
            && D <= ms && D <= md
            && r.totalSupplyIndex == Mul(p.totalSupplyIndex, ms) && r.totalDebtIndex == Mul(p.totalDebtIndex, md)
            && r.supply == MulInt(ms, p.supply) && r.debt == MulInt(md, p.debt)
            && r == p.(supply := r.supply, debt := r.debt, totalSupplyIndex := r.totalSupplyIndex,
                       totalDebtIndex := r.totalDebtIndex, lastUpdated := now)
  {
    EffectiveIsAccrued(p, now, 0, 0);
    NoTimeNoGrowth(p);
    MultipliersGrow(p, 0, now - p.lastUpdated);
    MulOne(p.supply);
    MulOne(p.debt);
  }

  lemma NoTimeNoGrowth(p: Pool)
    ensures SupplyMultiplier(p, 0) == D && DebtMultiplier(p, 0) == D
  {
    ElapsedIsExact(SupplyRate(p), 0);
    ElapsedIsExact(DebtRate(p), 0);
  }

  lemma MultipliersGrow(p: Pool, t: nat, t': nat)
    requires t <= t'
    ensures D <= SupplyMultiplier(p, t) <= SupplyMultiplier(p, t')
    ensures D <= DebtMultiplier(p, t) <= DebtMultiplier(p, t')
  {
    ElapsedIsExact(SupplyRate(p), t);
    ElapsedIsExact(SupplyRate(p), t');
    ElapsedIsExact(DebtRate(p), t);
    ElapsedIsExact(DebtRate(p), t');
    MulLe(t, t', SupplyRate(p));
    MulLe(t, t', DebtRate(p));
  }

  /** Effective indices only grow with the block number. */
  lemma EffectiveGrows(p: Pool, now: nat, later: nat)
    requires now <= later
    ensures EffectiveSupplyIndex(p, now) <= EffectiveSupplyIndex(p, later)
    ensures EffectiveDebtIndex(p, now) <= EffectiveDebtIndex(p, later)
  {
    MultipliersGrow(p, Elapsed(p, now), Elapsed(p, later));
    MulLeLeft(SupplyMultiplier(p, Elapsed(p, now)), SupplyMultiplier(p, Elapsed(p, later)), p.totalSupplyIndex);
    MulLeLeft(DebtMultiplier(p, Elapsed(p, now)), DebtMultiplier(p, Elapsed(p, later)), p.totalDebtIndex);
  }

  /** Catching a record up twice at one index is catching it up once. */
  lemma GrownTwice(r: Record, index: Index)
    ensures Grown(Grown(r, index), index) == Grown(r, index)
  {
    DivSelf(index);
    MulOne(Grown(r, index).amount);
  }

  /** Catching up never shrinks a record that is not ahead of the pool. */
  lemma GrownKeeps(r: Record, index: Index)
    requires r.index <= index
    ensures r.amount <= Grown(r, index).amount
  {
    RatioAtLeastOne(index, r.index);
    Grows(Div(index, r.index), r.amount);
  }

  /** ... and it loses less than 1 + amount / D against the exact amount * index / record index. */
  lemma GrownLosesLittle(r: Record, index: Index)
    requires r.amount > 0
    ensures r.amount * index * D < (Grown(r, index).amount + 1) * r.index * D + r.amount * r.index
  {
    var q, a, n, i := Div(index, r.index), Grown(r, index).amount, r.amount, r.index;
    FloorBounds(index * D, i);
    FloorBounds(q * n, D);
    MulLt(index * D, q * i + i, n);
    MulLt(q * n, a * D + D, i);
    assert index * D * n == n * index * D by { Reorder(index, D, n); }
    assert (q * i + i) * n == q * n * i + n * i by { Reorder(q, i, n); assert (q * i + i) * n == q * i * n + i * n; }
    assert (a * D + D) * i == (a + 1) * i * D by { Reorder(a + 1, D, i); }
  }

  // ---------- interest credited against interest charged ----------

  function SupplyInterest(p: Pool, now: nat): int {
    Accrue(p, now).supply - p.supply
  }

  function DebtInterest(p: Pool, now: nat): int {
    Accrue(p, now).debt - p.debt
  }

  /** Interest on an integer total: floor(rate * t * total / D). */
  lemma InterestIs(rate: nat, t: nat, total: nat)
    ensures MulInt(D + Mul(rate, FromInteger(t)), total) == total + rate * t * total / D
  {
    ElapsedIsExact(rate, t);
    var i := rate * t * total;
    assert (D + rate * t) * total == D * total + i;
    FloorBounds(i, D);
    FloorAtLeast(D * total + i, D, total + i / D);
    FloorAtMost(D * total + i, D, total + i / D);
  }

  /** supplyRate * supply <= debtRate * debt, and by how much it may fall short. */
  lemma RateTimesTotal(p: Pool)
    requires p.supply > 0
    ensures SupplyRate(p) * p.supply <= DebtRate(p) * p.debt
    ensures DebtRate(p) * p.debt * D < SupplyRate(p) * p.supply * D + p.supply * (DebtRate(p) + D)
  {
    FloorBounds(DebtRate(p) * Utilization(p), D);
    FloorBounds(p.debt * D, p.supply);
    RateFloors(DebtRate(p), Utilization(p), SupplyRate(p), p.supply, p.debt);
    RateSlack(DebtRate(p), Utilization(p), SupplyRate(p), p.supply, p.debt);
  }

  lemma RateFloors(r: nat, u: nat, rs: nat, s: nat, b: nat)
    requires rs * D <= r * u && u * s <= b * D
    ensures rs * s <= r * b
  {
    calc {
      rs * s * D;
      == { Reorder(rs, s, D); }
      rs * D * s;
      <= { MulLe(rs * D, r * u, s); }
      r * u * s;
      == { assert r * u * s == r * (u * s); }
      r * (u * s);
      <= { MulLe(u * s, b * D, r); }
      r * (b * D);
      == { assert r * b * D == r * (b * D); }
      r * b * D;
    }
    CancelLe(rs * s, r * b, D);
  }

  lemma RateSlack(r: nat, u: nat, rs: nat, s: nat, b: nat)
    requires r * u < rs * D + D && b * D < u * s + s && s > 0
    ensures r * b * D < rs * s * D + s * (r + D)
  {
    calc {
      r * b * D;
      == { assert r * b * D == r * (b * D); }
      r * (b * D);
      <= { MulLe(b * D, u * s + s, r); }
      r * (u * s + s);
      == { assert r * (u * s + s) == r * u * s + r * s; }
      r * u * s + r * s;
      < { MulLt(r * u, rs * D + D, s); }
      (rs * D + D) * s + r * s;
      == { assert (rs * D + D) * s + r * s == rs * s * D + s * (r + D); }
      rs * s * D + s * (r + D);
    }
  }

  /** The interest of an accrual, in closed form. */
  lemma InterestOf(p: Pool, now: nat)
    ensures SupplyInterest(p, now) == SupplyRate(p) * p.supply * Elapsed(p, now) / D
    ensures DebtInterest(p, now) == DebtRate(p) * p.debt * Elapsed(p, now) / D
  {
    var t := Elapsed(p, now);
    Reorder(SupplyRate(p), t, p.supply);
    Reorder(DebtRate(p), t, p.debt);
    if p.lastUpdated < now {
      InterestIs(SupplyRate(p), t, p.supply);
      InterestIs(DebtRate(p), t, p.debt);
    }
  }

  /** In any accrual, suppliers are credited at most what borrowers are charged. */
  lemma SuppliersGetAtMostDebtorsPay(p: Pool, now: nat)
    ensures 0 <= SupplyInterest(p, now) <= DebtInterest(p, now)
  {
    InterestOf(p, now);
    var credited, charged := SupplyRate(p) * p.supply, DebtRate(p) * p.debt;
    if p.supply > 0 {
      RateTimesTotal(p);
    }
    MulLe(credited, charged, Elapsed(p, now));
    MulLe(0, credited, Elapsed(p, now));
    FloorLe(credited * Elapsed(p, now), charged * Elapsed(p, now), D);
  }

  /** ... and the interest the pool retains is below 1 + t * supply * (debtRate + D) / D^2. */
  lemma RetainedInterestIsSmall(p: Pool, now: nat)
    requires p.supply > 0
    ensures (DebtInterest(p, now) - SupplyInterest(p, now) - 1) * D * D
            < Elapsed(p, now) * (p.supply * (DebtRate(p) + D))
  {
    InterestOf(p, now);
    RateTimesTotal(p);
    FloorGap(SupplyRate(p) * p.supply, DebtRate(p) * p.debt, p.supply * (DebtRate(p) + D), Elapsed(p, now));
  }

  /** The interest an accrual at `now` retains is more than the supply not lent out, read off the
      stored pool. */
  predicate Overtaken(p: Pool, now: nat) {
    p.supply - p.debt < DebtRate(p) * p.debt * Elapsed(p, now) / D - SupplyRate(p) * p.supply * Elapsed(p, now) / D
  }

  /** So this is exactly when the accrued pool records more debt than supply. */
  lemma DebtOvertakesIff(p: Pool, now: nat)
    ensures Accrue(p, now).supply < Accrue(p, now).debt <==> Overtaken(p, now)
  {
    InterestOf(p, now);
  }

  /** A margin of t * supply * (debtRate + D) / D^2 units not lent out is enough. */
  lemma MarginKeepsDebtCovered(p: Pool, now: nat)
    requires Elapsed(p, now) * (p.supply * (DebtRate(p) + D)) <= (p.supply - p.debt) * D * D
    ensures !Overtaken(p, now)
  {
    InterestOf(p, now);
    if p.supply > 0 {
      RetainedInterestIsSmall(p, now);
    } else {
      MulLe(0, Elapsed(p, now), p.supply * (DebtRate(p) + D));
      assert DebtRate(p) * p.debt * Elapsed(p, now) == 0;
    }
  }

  lemma FloorGap(credited: nat, charged: nat, slack: nat, t: nat)
    requires charged * D < credited * D + slack
    ensures (charged * t / D - credited * t / D - 1) * D * D < t * slack
  {
    var x, y := credited * t, charged * t;
    FloorBounds(x, D);
    FloorBounds(y, D);
    MulLe(charged * D, credited * D + slack, t);
    assert charged * D * t == y * D by { Reorder(charged, D, t); }
    assert (credited * D + slack) * t == x * D + t * slack by { Reorder(credited, D, t); }
  }

  // ---------- the formulas, with every floor accounted for ----------

  /** The debt rate above its initial value is utilizationFactor * debt / supply, less what two floors
      take; without supply there is no supply rate and nothing above the initial debt rate. */
  lemma DebtRateIs(p: Pool)
    ensures p.initialInterestRate <= DebtRate(p)
    ensures p.supply == 0 ==> DebtRate(p) == p.initialInterestRate && SupplyRate(p) == 0
    ensures var above := DebtRate(p) - p.initialInterestRate;
            p.supply > 0 ==>
              && above * p.supply <= p.utilizationFactor * p.debt
              && p.utilizationFactor * p.debt * D < above * p.supply * D + p.supply * (p.utilizationFactor + D)
  {
    if p.supply > 0 {
      var f, u := p.utilizationFactor, Utilization(p);
      FloorBounds(f * u, D);
      FloorBounds(p.debt * D, p.supply);
      RateFloors(f, u, Mul(f, u), p.supply, p.debt);
      RateSlack(f, u, Mul(f, u), p.supply, p.debt);
    }
  }

  /** An index after t blocks is the greatest one within index * (1 + rate * t). */
  lemma IndicesGrowByRate(p: Pool, now: nat, n: nat)
    ensures n <= EffectiveSupplyIndex(p, now) <==> n * D <= p.totalSupplyIndex * (D + SupplyRate(p) * Elapsed(p, now))
    ensures n <= EffectiveDebtIndex(p, now) <==> n * D <= p.totalDebtIndex * (D + DebtRate(p) * Elapsed(p, now))
  {
    MultiplierIs(p, Elapsed(p, now));
    FloorIs(p.totalSupplyIndex * (D + SupplyRate(p) * Elapsed(p, now)), D, n);
    FloorIs(p.totalDebtIndex * (D + DebtRate(p) * Elapsed(p, now)), D, n);
  }

  // ---------- splitting an interval ----------

  /** While debt <= supply, an accrual lowers neither utilization nor either rate. */
  lemma AccrualKeepsUtilization(p: Pool, now: nat)
    requires 0 < p.supply && p.debt <= p.supply
    ensures var q := Accrue(p, now);
            && 0 < q.supply
            && Utilization(p) <= Utilization(q)
            && DebtRate(p) <= DebtRate(q)
            && SupplyRate(p) <= SupplyRate(q)
  {
    var q := Accrue(p, now);
    SuppliersGetAtMostDebtorsPay(p, now);
    UtilizationRises(p.debt, p.supply, q.debt, q.supply);
    RatesRise(p, q);
  }

  lemma UtilizationRises(debt: nat, supply: nat, debt': nat, supply': nat)
    requires 0 < supply && debt <= supply
    requires 0 <= supply' - supply <= debt' - debt
    ensures FromRational(debt, supply) <= FromRational(debt', supply')
  {
    var u, e := FromRational(debt, supply), supply' - supply;
    assert debt * supply' <= debt' * supply by {
      assert debt * supply' == debt * supply + debt * e;
      MulLe(debt, supply, e);
      MulLe(debt + e, debt', supply);
    }
    FloorBounds(debt * D, supply);
    MulLe(u * supply, debt * D, supply');
    Reorder(u, supply, supply');
    Reorder(debt, D, supply');
    Reorder(debt', D, supply);
    CancelLe(u * supply', debt' * D, supply);
    FloorAtLeast(debt' * D, supply', u);
  }

  lemma RatesRise(p: Pool, q: Pool)
    requires 0 < p.supply && 0 < q.supply
    requires p.utilizationFactor == q.utilizationFactor && p.initialInterestRate == q.initialInterestRate
    requires Utilization(p) <= Utilization(q)
    ensures DebtRate(p) <= DebtRate(q) && SupplyRate(p) <= SupplyRate(q)
  {
    MulLeLeft(Utilization(p), Utilization(q), p.utilizationFactor);
    MulLeLeft(Utilization(p), Utilization(q), DebtRate(p));
    MulLeLeft(DebtRate(p), DebtRate(q), Utilization(q));
  }

  /** The bound behind splitting: two multipliers worth at least one lose only the two floors. */
  lemma SplitIndex(i: nat, m1: nat, m2: nat, m: nat)
    requires m * D <= m1 * m2
    ensures Mul(i, m) * D < Mul(Mul(i, m1), m2) * D + D + m2
  {
    var i1 := Mul(i, m1);
    FloorBounds(i * m1, D);
    FloorBounds(i1 * m2, D);
    FloorBounds(i * m, D);
    assert i * m * D <= i * m1 * m2 by {
      MulLe(m * D, m1 * m2, i);
      assert i * m * D == i * (m * D);
      assert i * m1 * m2 == i * (m1 * m2);
    }
    assert i * m1 * m2 <= (i1 * m2 + m2) * D by {
      MulLe(i * m1, i1 * D + D, m2);
      Reorder(i1, D, m2);
      assert (i1 * D + D) * m2 == i1 * D * m2 + D * m2;
    }
  }

  /** Compounding two spans at rates that do not fall is worth at least the single span. */
  lemma CompoundBeatsSimple(r: nat, r2: nat, t1: nat, t2: nat)
    requires r <= r2
    ensures (D + r * (t1 + t2)) * D <= (D + r * t1) * (D + r2 * t2)
  {
    var a, b, b' := r * t1, r * t2, r2 * t2;
    MulLe(r, r2, t2);
    assert r * (t1 + t2) == a + b;
    MulLe(0, a, b');
    assert (D + a) * (D + b') == D * (D + b') + a * (D + b');
    assert a * (D + b') == a * D + a * b';
  }

  /** The indices after one accrual, and after two with the first at t1 blocks. */
  lemma SplitIndices(p: Pool, t1: nat, t2: nat)
    ensures var last, mid := p.lastUpdated, Accrue(p, p.lastUpdated + t1);
            && Accrue(p, last + t1 + t2).totalSupplyIndex == Mul(p.totalSupplyIndex, SupplyMultiplier(p, t1 + t2))
            && Accrue(p, last + t1 + t2).totalDebtIndex == Mul(p.totalDebtIndex, DebtMultiplier(p, t1 + t2))
            && Accrue(mid, last + t1 + t2).totalSupplyIndex == Mul(Mul(p.totalSupplyIndex, SupplyMultiplier(p, t1)), SupplyMultiplier(mid, t2))
            && Accrue(mid, last + t1 + t2).totalDebtIndex == Mul(Mul(p.totalDebtIndex, DebtMultiplier(p, t1)), DebtMultiplier(mid, t2))
  {
    EffectiveIsAccrued(p, p.lastUpdated + t1, 0, 0);
    EffectiveIsAccrued(p, p.lastUpdated + t1 + t2, 0, 0);
    EffectiveIsAccrued(Accrue(p, p.lastUpdated + t1), p.lastUpdated + t1 + t2, 0, 0);
  }

  lemma MultiplierIs(p: Pool, t: nat)
    ensures SupplyMultiplier(p, t) == D + SupplyRate(p) * t
    ensures DebtMultiplier(p, t) == D + DebtRate(p) * t
  {
    ElapsedIsExact(SupplyRate(p), t);
    ElapsedIsExact(DebtRate(p), t);
  }

  /** At rates that do not fall, two multipliers are worth the single one. */
  lemma MultipliersCompound(p: Pool, q: Pool, t1: nat, t2: nat)
    requires SupplyRate(p) <= SupplyRate(q) && DebtRate(p) <= DebtRate(q)
    ensures SupplyMultiplier(p, t1 + t2) * D <= SupplyMultiplier(p, t1) * SupplyMultiplier(q, t2)
    ensures DebtMultiplier(p, t1 + t2) * D <= DebtMultiplier(p, t1) * DebtMultiplier(q, t2)
  {
    MultiplierIs(p, t1);
    MultiplierIs(p, t1 + t2);
    MultiplierIs(q, t2);
    CompoundBeatsSimple(SupplyRate(p), SupplyRate(q), t1, t2);
    CompoundBeatsSimple(DebtRate(p), DebtRate(q), t1, t2);
  }

  /** Accruing at t1 and again t2 blocks later gives each index more than the index of the single
      accrual minus 1 + m2 / D, where m2 is the second multiplier. */
  lemma SplittingCostsAtMostTwoFloors(p: Pool, t1: nat, t2: nat)
    requires 0 < p.supply && p.debt <= p.supply
    ensures var mid := Accrue(p, p.lastUpdated + t1);
            var once, twice := Accrue(p, p.lastUpdated + t1 + t2), Accrue(mid, p.lastUpdated + t1 + t2);
            && once.totalSupplyIndex * D < twice.totalSupplyIndex * D + D + SupplyMultiplier(mid, t2)
            && once.totalDebtIndex * D < twice.totalDebtIndex * D + D + DebtMultiplier(mid, t2)
  {
    var mid := Accrue(p, p.lastUpdated + t1);
    AccrualKeepsUtilization(p, p.lastUpdated + t1);
    SplitIndices(p, t1, t2);
    MultipliersCompound(p, mid, t1, t2);
    SplitIndex(p.totalSupplyIndex, SupplyMultiplier(p, t1), SupplyMultiplier(mid, t2), SupplyMultiplier(p, t1 + t2));
    SplitIndex(p.totalDebtIndex, DebtMultiplier(p, t1), DebtMultiplier(mid, t2), DebtMultiplier(p, t1 + t2));
  }

  // ---------- any number of spans ----------

  /** A multiplier as an exact growth factor. */
  ghost function Factor(m: nat): real {
    m as real / D as real
  }

  function TotalSpan(spans: seq<nat>): nat {
    if spans == [] then 0 else TotalSpan(spans[..|spans| - 1]) + spans[|spans| - 1]
  }

  /** Accruing after each of the spans. */
  function AccrueSpans(p: Pool, spans: seq<nat>): Pool {
    if spans == [] then p
    else
      var q := AccrueSpans(p, spans[..|spans| - 1]);
      Accrue(q, q.lastUpdated + spans[|spans| - 1])
  }

  /** The products of the exact multipliers of the spans. */
  ghost function SpansSupplyGrowth(p: Pool, spans: seq<nat>): real {
    if spans == [] then 1.0
    else
      var front, last := spans[..|spans| - 1], spans[|spans| - 1];
      SpansSupplyGrowth(p, front) * Factor(SupplyMultiplier(AccrueSpans(p, front), last))
  }

  ghost function SpansDebtGrowth(p: Pool, spans: seq<nat>): real {
    if spans == [] then 1.0
    else
      var front, last := spans[..|spans| - 1], spans[|spans| - 1];
      SpansDebtGrowth(p, front) * Factor(DebtMultiplier(AccrueSpans(p, front), last))
  }

  /** Accrual never lowers the rates below those of a pool that started with debt <= supply, even once
      debt has overtaken supply. */
  ghost predicate RatesAtLeast(p: Pool, q: Pool) {
    && 0 < p.supply && 0 < q.supply && p.debt <= p.supply
    && q.utilizationFactor == p.utilizationFactor && q.initialInterestRate == p.initialInterestRate
    && Utilization(p) <= Utilization(q)
  }

  lemma AccrualKeepsRatesAtLeast(p: Pool, q: Pool, now: nat)
    requires RatesAtLeast(p, q)
    ensures RatesAtLeast(p, Accrue(q, now))
  {
    var q' := Accrue(q, now);
    SuppliersGetAtMostDebtorsPay(q, now);
    if q.debt <= q.supply {
      UtilizationRises(q.debt, q.supply, q'.debt, q'.supply);
    } else {
      UtilizationBelow(p.debt, p.supply);
      UtilizationAbove(q'.debt, q'.supply);
    }
  }

  lemma UtilizationBelow(debt: nat, supply: nat)
    requires 0 < supply && debt <= supply
    ensures FromRational(debt, supply) <= D
  {
    MulLe(debt, supply, D);
    FloorLe(debt * D, supply * D, supply);
    DivSelf(supply);
  }

  lemma UtilizationAbove(debt: nat, supply: nat)
    requires 0 < supply <= debt
    ensures D <= FromRational(debt, supply)
  {
    MulLe(supply, debt, D);
    FloorAtLeast(debt * D, supply, D);
  }

  lemma {:induction false} SpansKeepRates(p: Pool, spans: seq<nat>)
    requires 0 < p.supply && p.debt <= p.supply
    ensures var q := AccrueSpans(p, spans);
            && RatesAtLeast(p, q)
            && q.lastUpdated == p.lastUpdated + TotalSpan(spans)
  {
    if spans != [] {
      var front, last := spans[..|spans| - 1], spans[|spans| - 1];
      var q := AccrueSpans(p, front);
      SpansKeepRates(p, front);
      AccrualKeepsRatesAtLeast(p, q, q.lastUpdated + last);
      EffectiveIsAccrued(q, q.lastUpdated + last, 0, 0);
    }
  }

  /** The single index is ahead of the split one by at most c * growth - 1. */
  ghost predicate Behind(split: nat, once: nat, c: real, growth: real) {
    growth >= 1.0 && once as real + 1.0 <= split as real + c * growth
  }

  /** One more span on one index: the single multipliers are m1 before and m after it, its own is f. */
  lemma OneMoreSpan(i: nat, m1: nat, m: nat, f: nat, split: nat, c: real, growth: real)
    requires m * D <= m1 * f && D <= f && c >= 1.0
    requires Behind(split, Mul(i, m1), c, growth)
    ensures Behind(Mul(split, f), Mul(i, m), c + 2.0, growth * Factor(f))
  {
    var r := Factor(f);
    SingleSpan(i, m1, m, f);
    SplitSpan(split, f);
    AtLeastOne(growth, r);
    SpanGap(Mul(i, m1) as real, Mul(i, m) as real, split as real, Mul(split, f) as real, c, growth, r);
  }

  lemma SpanGap(s1: real, s: real, i1: real, i: real, c: real, growth: real, r: real)
    requires s <= (s1 + 1.0) * r && i1 * r <= i + 1.0 && s1 + 1.0 <= i1 + c * growth
    requires 1.0 <= r && 1.0 <= growth * r
    ensures s + 1.0 <= i + (c + 2.0) * (growth * r)
  {
    RealLe(s1 + 1.0, i1 + c * growth, r);
    assert (i1 + c * growth) * r == i1 * r + c * (growth * r);
    assert (c + 2.0) * (growth * r) == c * (growth * r) + 2.0 * (growth * r);
  }

  /** The single index after the span is at most the one before it, rounded up, grown. */
  lemma SingleSpan(i: nat, m1: nat, m: nat, f: nat)
    requires m * D <= m1 * f
    ensures Mul(i, m) as real <= (Mul(i, m1) as real + 1.0) * Factor(f)
  {
    var s1, s := Mul(i, m1), Mul(i, m);
    FloorBounds(i * m1, D);
    FloorBounds(i * m, D);
    assert s * D * D <= (s1 + 1) * f * D by {
      MulLe(s * D, i * m, D);
      MulLe(m * D, m1 * f, i);
      assert i * m * D == i * (m * D) && i * m1 * f == i * (m1 * f);
      MulLe(i * m1, (s1 + 1) * D, f);
      Reorder(s1 + 1, D, f);
    }
    CancelLe(s * D, (s1 + 1) * f, D);
    assert (s * D) as real <= ((s1 + 1) * f) as real;
    assert (s * D) as real == s as real * D as real;
    assert ((s1 + 1) * f) as real == (s1 as real + 1.0) * f as real;
    assert (s1 as real + 1.0) * f as real == (s1 as real + 1.0) * Factor(f) * D as real;
  }

  lemma SplitSpan(split: nat, f: nat)
    ensures split as real * Factor(f) <= Mul(split, f) as real + 1.0
  {
    FloorBounds(split * f, D);
    assert (split * f) as real <= (Mul(split, f) * D + D) as real;
    assert (split * f) as real == split as real * f as real;
    assert split as real * f as real == split as real * Factor(f) * D as real;
  }

  lemma FirstSpan(i: nat, m: nat)
    requires D <= m
    ensures Behind(Mul(i, m), Mul(i, m), 1.0, 1.0 * Factor(m))
  {
  }

  /** What one more span means for the supply index; then for the debt index. */
  lemma SupplySpan(p: Pool, q: Pool, t1: nat, t: nat)
    requires RatesAtLeast(p, q) && q.lastUpdated == p.lastUpdated + t1
    ensures var m1, m, f := SupplyMultiplier(p, t1), SupplyMultiplier(p, t1 + t), SupplyMultiplier(q, t);
            && D <= f && m * D <= m1 * f
            && Accrue(p, p.lastUpdated + t1).totalSupplyIndex == Mul(p.totalSupplyIndex, m1)
            && Accrue(p, p.lastUpdated + t1 + t).totalSupplyIndex == Mul(p.totalSupplyIndex, m)
            && Accrue(q, q.lastUpdated + t).totalSupplyIndex == Mul(q.totalSupplyIndex, f)
  {
    RatesRise(p, q);
    MultipliersCompound(p, q, t1, t);
    AccruedFields(p, p.lastUpdated + t1);
    AccruedFields(p, p.lastUpdated + t1 + t);
    AccruedFields(q, q.lastUpdated + t);
  }

  lemma DebtSpan(p: Pool, q: Pool, t1: nat, t: nat)
    requires RatesAtLeast(p, q) && q.lastUpdated == p.lastUpdated + t1
    ensures var m1, m, f := DebtMultiplier(p, t1), DebtMultiplier(p, t1 + t), DebtMultiplier(q, t);
            && D <= f && m * D <= m1 * f
            && Accrue(p, p.lastUpdated + t1).totalDebtIndex == Mul(p.totalDebtIndex, m1)
            && Accrue(p, p.lastUpdated + t1 + t).totalDebtIndex == Mul(p.totalDebtIndex, m)
            && Accrue(q, q.lastUpdated + t).totalDebtIndex == Mul(q.totalDebtIndex, f)
  {
    RatesRise(p, q);
    MultipliersCompound(p, q, t1, t);
    AccruedFields(p, p.lastUpdated + t1);
    AccruedFields(p, p.lastUpdated + t1 + t);
    AccruedFields(q, q.lastUpdated + t);
  }

  lemma OneMoreSpanBothSides(p: Pool, q: Pool, t1: nat, t: nat, c: real, gs: real, gd: real)
    requires RatesAtLeast(p, q) && q.lastUpdated == p.lastUpdated + t1 && c >= 1.0
    requires var once := Accrue(p, p.lastUpdated + t1);
             Behind(q.totalSupplyIndex, once.totalSupplyIndex, c, gs) && Behind(q.totalDebtIndex, once.totalDebtIndex, c, gd)
    ensures var once, split := Accrue(p, p.lastUpdated + t1 + t), Accrue(q, q.lastUpdated + t);
            && Behind(split.totalSupplyIndex, once.totalSupplyIndex, c + 2.0, gs * Factor(SupplyMultiplier(q, t)))
            && Behind(split.totalDebtIndex, once.totalDebtIndex, c + 2.0, gd * Factor(DebtMultiplier(q, t)))
  {
    hide Accrue, Factor, SupplyMultiplier, DebtMultiplier, Mul, RatesAtLeast;
    SupplySpan(p, q, t1, t);
    DebtSpan(p, q, t1, t);
    OneMoreSpan(p.totalSupplyIndex, SupplyMultiplier(p, t1), SupplyMultiplier(p, t1 + t), SupplyMultiplier(q, t), q.totalSupplyIndex, c, gs);
    OneMoreSpan(p.totalDebtIndex, DebtMultiplier(p, t1), DebtMultiplier(p, t1 + t), DebtMultiplier(q, t), q.totalDebtIndex, c, gd);
  }

  /** However an interval is split into k > 0 spans, the single accrual's indices are ahead by at most
      (2 k - 1) * M - 1, with M the product of the exact multipliers of the spans. */
  lemma {:induction false} SpansCostLittle(p: Pool, spans: seq<nat>)
    requires 0 < p.supply && p.debt <= p.supply && spans != []
    ensures var once, split := Accrue(p, p.lastUpdated + TotalSpan(spans)), AccrueSpans(p, spans);
            var c := (2 * |spans| - 1) as real;
            && Behind(split.totalSupplyIndex, once.totalSupplyIndex, c, SpansSupplyGrowth(p, spans))
            && Behind(split.totalDebtIndex, once.totalDebtIndex, c, SpansDebtGrowth(p, spans))
  {
    hide Accrue, Factor, SupplyMultiplier, DebtMultiplier, RatesAtLeast;
    var front, last := spans[..|spans| - 1], spans[|spans| - 1];
    if front == [] {
      AccruedFields(p, p.lastUpdated + last);
      FirstSpan(p.totalSupplyIndex, SupplyMultiplier(p, last));
      FirstSpan(p.totalDebtIndex, DebtMultiplier(p, last));
    } else {
      SpansKeepRates(p, front);
      SpansCostLittle(p, front);
      OneMoreSpanBothSides(p, AccrueSpans(p, front), TotalSpan(front), last, (2 * |front| - 1) as real, SpansSupplyGrowth(p, front), SpansDebtGrowth(p, front));
    }
  }
}
