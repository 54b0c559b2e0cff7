// How far pool totals, user claims and the pallet's cash can drift apart. The claims on a pool are
// its index times the exposure of its users: the exact sum of amount * pool index / user index.

module LendingDrift {
  import opened Identifiers
  import opened FixedPoint
  import opened AssetLedger
  import opened InterestModel
  import opened UserBooks
  import opened LendingMarket
  import opened LendingSteps
  import opened LendingInvariant

  /** What a run has done to one pool: committed accruals, the product of their exact multipliers,
      and what liquidations paid in and seized, which the pool totals do not show. */
  datatype Tally = Tally(accruals: nat, supplyGrowth: real, debtGrowth: real, paid: nat, seized: nat)

  const Untouched := Tally(0, 1.0, 1.0, 0, 0)

  /** Claims index * e exceed the recorded total by at most n * growth. */
  ghost predicate Covered(index: Index, e: real, total: nat, n: nat, growth: real) {
    && e >= 0.0 && growth >= 1.0
    && index as real * e - total as real <= n as real * growth
  }

  /** Claims and cash within their bounds; and an index still at one tells that no accrual has been
      committed. */
  ghost predicate Bounded(p: Pool, supplyExposure: real, debtExposure: real, cash: int, t: Tally) {
    && Covered(p.totalSupplyIndex, supplyExposure, p.supply, t.accruals, t.supplyGrowth)
    && Covered(p.totalDebtIndex, debtExposure, p.debt, t.accruals, t.debtGrowth)
    && p.supply - p.debt <= cash
    && (p.totalDebtIndex == D ==> t.accruals == 0)
  }

  /** Cash is the pallet's balance, corrected by what liquidations moved past the pool totals. */
  ghost function Cash(m: Market, asset: AssetId, t: Tally): int {
    Balance(m.ledger, asset, LendingPallet) + t.seized - t.paid
  }

  /** For a pool: claims exceed the recorded supply by at most N * M, and likewise for debt; the
      corrected cash covers recorded supply minus recorded debt. */
  ghost predicate PoolBounded(m: Market, asset: AssetId, t: Tally)
    requires asset in m.pools
  {
    Bounded(m.pools[asset], Exposure(m.supplies, asset), Exposure(m.debts, asset), Cash(m, asset, t), t)
  }

  /** The tally after a step that left pool `q` in place of `p`. */
  ghost function Count(t: Tally, p: Pool, q: Pool): Tally {
    if q.lastUpdated <= p.lastUpdated then t
    else t.(accruals := t.accruals + 1,
            supplyGrowth := t.supplyGrowth * Factor(SupplyMultiplier(p, q.lastUpdated - p.lastUpdated)),
            debtGrowth := t.debtGrowth * Factor(DebtMultiplier(p, q.lastUpdated - p.lastUpdated)))
  }

  // ---------- one accrual ----------

  /** Both floors of an accrual against the exact growth. */
  lemma FloorsAgainstGrowth(total: nat, index: nat, m: nat)
    ensures Mul(index, m) as real <= index as real * (m as real / D as real)
    ensures total as real * (m as real / D as real) < MulInt(m, total) as real + 1.0
  {
    var d, r := D as real, m as real / D as real;
    FloorBounds(index * m, D);
    FloorBounds(m * total, D);
    assert (Mul(index, m) * D) as real <= (index * m) as real;
    assert (index * m) as real == index as real * m as real;
    assert index as real * m as real == index as real * r * d;
    assert (m * total) as real < (MulInt(m, total) * D + D) as real;
    assert (m * total) as real == total as real * m as real;
    assert total as real * m as real == total as real * r * d;
  }

  /** Growing a bounded gap by r and losing less than one unit to the floors. */
  lemma GapGrows(claims: real, total: real, claims': real, total': real, bound: real, r: real)
    requires claims - total <= bound && 0.0 <= r
    requires claims' <= claims * r && total * r < total' + 1.0
    ensures claims' - total' < bound * r + 1.0
  {
    RealLe(claims - total, bound, r);
    assert (claims - total) * r == claims * r - total * r;
  }

  /** One accrual lets the claims gain less than one unit on the recorded total. */
  lemma AccrualGap(total: nat, index: Index, index': Index, e: real, m: nat, n: nat, growth: real)
    requires Covered(index, e, total, n, growth) && D <= m && index' == Mul(index, m)
    ensures index' as real * e < MulInt(m, total) as real + 1.0 + n as real * (growth * Factor(m))
  {
    var r := Factor(m);
    FloorsAgainstGrowth(total, index, m);
    RealLe(index' as real, index as real * r, e);
    assert index as real * r * e == index as real * e * r;
    GapGrows(index as real * e, total as real, index' as real * e, MulInt(m, total) as real, n as real * growth, r);
    assert n as real * growth * r == n as real * (growth * r);
  }

  lemma AccrualDrift(total: nat, index: Index, index': Index, e: real, m: nat, n: nat, growth: real)
    requires Covered(index, e, total, n, growth) && D <= m && index' == Mul(index, m)
    ensures Covered(index', e, MulInt(m, total), n + 1, growth * Factor(m))
  {
    var r := Factor(m);
    AccrualGap(total, index, index', e, m, n, growth);
    AtLeastOne(growth, r);
    assert (n + 1) as real * (growth * r) == n as real * (growth * r) + growth * r;
  }

  lemma SupplySideAccrues(p: Pool, q: Pool, m: nat, now: nat, e: real, n: nat, growth: real)
    requires p.lastUpdated < now && q == Accrue(p, now) && m == SupplyMultiplier(p, now - p.lastUpdated)
    requires Covered(p.totalSupplyIndex, e, p.supply, n, growth)
    ensures Covered(q.totalSupplyIndex, e, q.supply, n + 1, growth * Factor(m))
  {
    hide *;
    AccruedFields(p, now);
    AccrualDrift(p.supply, p.totalSupplyIndex, q.totalSupplyIndex, e, m, n, growth);
  }

  lemma DebtSideAccrues(p: Pool, q: Pool, m: nat, now: nat, e: real, n: nat, growth: real)
    requires p.lastUpdated < now && q == Accrue(p, now) && m == DebtMultiplier(p, now - p.lastUpdated)
    requires Covered(p.totalDebtIndex, e, p.debt, n, growth)
    ensures Covered(q.totalDebtIndex, e, q.debt, n + 1, growth * Factor(m))
  {
    hide *;
    AccruedFields(p, now);
    AccrualDrift(p.debt, p.totalDebtIndex, q.totalDebtIndex, e, m, n, growth);
  }

  /** Both sides and the cash after an accrual from `p` to `q`, which the tally counts. */
  lemma SidesBound(p: Pool, q: Pool, now: nat, es: real, ed: real, cash: int, t: Tally)
    requires p.lastUpdated < now == q.lastUpdated
    requires Covered(q.totalSupplyIndex, es, q.supply, t.accruals + 1, t.supplyGrowth * Factor(SupplyMultiplier(p, now - p.lastUpdated)))
    requires Covered(q.totalDebtIndex, ed, q.debt, t.accruals + 1, t.debtGrowth * Factor(DebtMultiplier(p, now - p.lastUpdated)))
    requires q.supply - q.debt <= cash && D < q.totalDebtIndex
    ensures Bounded(q, es, ed, cash, Count(t, p, q))
  {
    hide SupplyMultiplier, DebtMultiplier;
  }

  lemma AccruedCash(p: Pool, now: nat, cash: int)
    requires p.supply - p.debt <= cash
    ensures Accrue(p, now).supply - Accrue(p, now).debt <= cash
  {
    SuppliersGetAtMostDebtorsPay(p, now);
  }

  /** Debt always costs something, so a committed accrual shows in the debt index. */
  lemma DebtIndexMoves(p: Pool, now: nat)
    requires PoolOk(p, now) && p.lastUpdated < now
    ensures D < Accrue(p, now).totalDebtIndex
  {
    var rate, t := DebtRate(p), now - p.lastUpdated;
    MultiplierIs(p, t);
    MulLe(1, t, rate);
    MulLe(D, p.totalDebtIndex, D + 1);
    MulLe(D + 1, DebtMultiplier(p, t), p.totalDebtIndex);
    FloorAtLeast(p.totalDebtIndex * DebtMultiplier(p, t), D, D + 1);
  }

  /** A committed accrual keeps the bounds, with the tally counting it. */
  lemma AccrueKeepsBounds(p: Pool, now: nat, es: real, ed: real, cash: int, t: Tally)
    requires PoolOk(p, now) && Bounded(p, es, ed, cash, t)
    ensures Bounded(Accrue(p, now), es, ed, cash, Count(t, p, Accrue(p, now)))
  {
    hide Accrue, SupplyMultiplier, DebtMultiplier;
    var q := Accrue(p, now);
    AccruedFields(p, now);
    if p.lastUpdated < now {
      SupplySideAccrues(p, q, SupplyMultiplier(p, now - p.lastUpdated), now, es, t.accruals, t.supplyGrowth);
      DebtSideAccrues(p, q, DebtMultiplier(p, now - p.lastUpdated), now, ed, t.accruals, t.debtGrowth);
      AccruedCash(p, now, cash);
      DebtIndexMoves(p, now);
      SidesBound(p, q, now, es, ed, cash, t);
    } else {
      NothingAccrued(p, now);
    }
  }

  lemma NothingAccrued(p: Pool, now: nat)
    requires now <= p.lastUpdated
    ensures Accrue(p, now) == p
  {
  }

  // ---------- one call, seen from one pool ----------

  /** The pool is untouched, claims did not grow and cash did not fall. */
  ghost predicate Kept(m: Market, m': Market, asset: AssetId, released: int)
    requires asset in m.pools && asset in m'.pools
  {
    && m'.pools[asset] == m.pools[asset]
    && Exposure(m'.supplies, asset) <= Exposure(m.supplies, asset)
    && Exposure(m'.debts, asset) <= Exposure(m.debts, asset)
    && Balance(m.ledger, asset, LendingPallet) <= Balance(m'.ledger, asset, LendingPallet) + released
  }

  /** `r`, the accrued pool, was committed with new totals, and claims and cash moved with them. */
  ghost predicate Renewed(m: Market, m': Market, asset: AssetId, r: Pool, released: int)
    requires asset in m.pools && asset in m'.pools
  {
    var q := m'.pools[asset];
    && q == r.(supply := q.supply, debt := q.debt)
    && Exposure(m'.supplies, asset) <= Exposure(m.supplies, asset) + (q.supply - r.supply) as real / r.totalSupplyIndex as real
    && Exposure(m'.debts, asset) <= Exposure(m.debts, asset) + (q.debt - r.debt) as real / r.totalDebtIndex as real
    && (q.supply - q.debt) - (r.supply - r.debt)
       <= Balance(m'.ledger, asset, LendingPallet) - Balance(m.ledger, asset, LendingPallet) + released
  }

  ghost predicate Flows(m: Market, m': Market, asset: AssetId, r: Pool, released: int)
    requires asset in m.pools && asset in m'.pools
  {
    Kept(m, m', asset, released) || Renewed(m, m', asset, r, released)
  }

  /** Claims that moved with the total keep their distance to it. */
  lemma ClaimsFollow(index: Index, e: real, e': real, total: nat, total': nat, n: nat, growth: real)
    requires 0.0 <= e' <= e + (total' - total) as real / index as real
    requires Covered(index, e, total, n, growth)
    ensures Covered(index, e', total', n, growth)
  {
    var i, d := index as real, (total' - total) as real;
    RealLe(e', e + d / i, i);
    assert (e + d / i) * i == e * i + d;
  }

  lemma ClaimsShrink(index: Index, e: real, e': real, total: nat, n: nat, growth: real)
    requires 0.0 <= e' <= e && Covered(index, e, total, n, growth)
    ensures Covered(index, e', total, n, growth)
  {
    RealLe(e', e, index as real);
  }

  /** So a call that flows keeps the pool bounded. */
  lemma FlowsKeepsBounds(m: Market, m': Market, now: nat, asset: AssetId, t: Tally, paid: nat, seized: nat)
    requires asset in m.pools && asset in m'.pools
    requires PoolOk(m.pools[asset], now)
    requires PoolBounded(m, asset, t)
    requires Flows(m, m', asset, Accrue(m.pools[asset], now), seized - paid)
    ensures PoolBounded(m', asset, Count(t, m.pools[asset], m'.pools[asset]).(paid := t.paid + paid, seized := t.seized + seized))
  {
    ExposureNonNegative(m'.supplies, asset);
    ExposureNonNegative(m'.debts, asset);
    if Kept(m, m', asset, seized - paid) {
      KeptKeepsBounds(m, m', asset, t, paid, seized);
    } else {
      RenewedKeepsBounds(m, m', now, asset, t, paid, seized);
    }
  }

  lemma KeptKeepsBounds(m: Market, m': Market, asset: AssetId, t: Tally, paid: nat, seized: nat)
    requires asset in m.pools && asset in m'.pools
    requires PoolBounded(m, asset, t) && Kept(m, m', asset, seized - paid)
    requires 0.0 <= Exposure(m'.supplies, asset) && 0.0 <= Exposure(m'.debts, asset)
    ensures PoolBounded(m', asset, t.(paid := t.paid + paid, seized := t.seized + seized))
  {
    var p := m.pools[asset];
    ClaimsShrink(p.totalSupplyIndex, Exposure(m.supplies, asset), Exposure(m'.supplies, asset), p.supply, t.accruals, t.supplyGrowth);
    ClaimsShrink(p.totalDebtIndex, Exposure(m.debts, asset), Exposure(m'.debts, asset), p.debt, t.accruals, t.debtGrowth);
  }

  lemma RenewedKeepsBounds(m: Market, m': Market, now: nat, asset: AssetId, t: Tally, paid: nat, seized: nat)
    requires asset in m.pools && asset in m'.pools && PoolOk(m.pools[asset], now)
    requires PoolBounded(m, asset, t) && Renewed(m, m', asset, Accrue(m.pools[asset], now), seized - paid)
    requires 0.0 <= Exposure(m'.supplies, asset) && 0.0 <= Exposure(m'.debts, asset)
    ensures PoolBounded(m', asset, Count(t, m.pools[asset], m'.pools[asset]).(paid := t.paid + paid, seized := t.seized + seized))
  {
    var p := m.pools[asset];
    var r := Accrue(p, now);
    AccrueKeepsBounds(p, now, Exposure(m.supplies, asset), Exposure(m.debts, asset), Cash(m, asset, t), t);
    CountIs(t, p, m'.pools[asset], r);
    RenewedTotals(m, m', asset, r, Count(t, p, r), paid, seized);
  }

  /** Counting looks only at the block of the new pool, and leaves the liquidation totals alone. */
  lemma CountIs(t: Tally, p: Pool, q: Pool, r: Pool)
    requires q.lastUpdated == r.lastUpdated
    ensures Count(t, p, q) == Count(t, p, r)
    ensures Count(t, p, q).paid == t.paid && Count(t, p, q).seized == t.seized
  {
  }

  lemma RenewedTotals(m: Market, m': Market, asset: AssetId, r: Pool, t: Tally, paid: nat, seized: nat)
    requires asset in m.pools && asset in m'.pools
    requires Bounded(r, Exposure(m.supplies, asset), Exposure(m.debts, asset), Cash(m, asset, t), t)
    requires Renewed(m, m', asset, r, seized - paid)
    requires 0.0 <= Exposure(m'.supplies, asset) && 0.0 <= Exposure(m'.debts, asset)
    ensures PoolBounded(m', asset, t.(paid := t.paid + paid, seized := t.seized + seized))
  {
    var q := m'.pools[asset];
    ClaimsFollow(r.totalSupplyIndex, Exposure(m.supplies, asset), Exposure(m'.supplies, asset), r.supply, q.supply, t.accruals, t.supplyGrowth);
    ClaimsFollow(r.totalDebtIndex, Exposure(m.debts, asset), Exposure(m'.debts, asset), r.debt, q.debt, t.accruals, t.debtGrowth);
  }

  // ---------- each call flows ----------

  /** A payment as the pallet's own balance sees it. */
  lemma PalletBalance(l: Ledger, from: AccountId, id: AssetId, to: AccountId, amount: nat, asset: AssetId)
    ensures var (l', ok) := Transfer(l, from, id, to, amount);
            (Balance(l', asset, LendingPallet) as int) == Balance(l, asset, LendingPallet)
              - (if ok && asset == id && from == LendingPallet then amount else 0)
              + (if ok && asset == id && to == LendingPallet then amount else 0)
  {
    TransferMoves(l, from, id, to, amount, asset, LendingPallet);
  }

  lemma NoFlow(m: Market, m': Market, asset: AssetId, r: Pool)
    requires asset in m.pools && m'.pools == m.pools
    requires Exposure(m'.supplies, asset) <= Exposure(m.supplies, asset)
    requires Exposure(m'.debts, asset) <= Exposure(m.debts, asset)
    requires Balance(m.ledger, asset, LendingPallet) <= Balance(m'.ledger, asset, LendingPallet)
    ensures Flows(m, m', asset, r, 0)
  {
  }

  /** Catching a user up first does not matter: it only lowers exposure. */
  lemma FlowsAfterAccrue(m: Market, m1: Market, m': Market, asset: AssetId, r: Pool, released: int)
    requires asset in m.pools && asset in m'.pools && m1.pools == m.pools && m1.ledger == m.ledger
    requires Exposure(m1.supplies, asset) <= Exposure(m.supplies, asset)
    requires Exposure(m1.debts, asset) <= Exposure(m.debts, asset)
    requires Flows(m1, m', asset, r, released)
    ensures Flows(m, m', asset, r, released)
  {
  }

  lemma TakeInFlows(m: Market, pool: Pool, user: AccountId, asset: AssetId, amount: nat, a: AssetId, r: Pool)
    requires user.User? && a in m.pools && (a == asset ==> r == pool)
    ensures var m' := TakeIn(m, pool, user, asset, amount).0;
            a in m'.pools && Flows(m, m', a, r, 0)
  {
    var (m', out) := TakeIn(m, pool, user, asset, amount);
    PalletBalance(m.ledger, user, asset, LendingPallet, amount, a);
    if out == Done {
      CreditExposure(m.supplies, pool.totalSupplyIndex, asset, user, amount, a);
      assert 0 as real / pool.totalDebtIndex as real == 0.0;
    }
  }

  lemma PayOutFlows(m: Market, pool: Pool, user: AccountId, asset: AssetId, paid: nat, a: AssetId, r: Pool)
    requires user.User? && a in m.pools && (a == asset ==> r == pool)
    requires (asset, user) in m.supplies.records && PayOut(m, pool, user, asset, paid).1 != Panicked
    ensures var m' := PayOut(m, pool, user, asset, paid).0;
            a in m'.pools && Flows(m, m', a, r, 0)
  {
    var (m', out) := PayOut(m, pool, user, asset, paid);
    PalletBalance(m.ledger, LendingPallet, asset, user, paid, a);
    if out == Done {
      DebitExposure(m.supplies, pool.totalSupplyIndex, asset, user, paid, a);
      assert 0 as real / pool.totalDebtIndex as real == 0.0;
      NegatedRatio(paid, pool.totalSupplyIndex);
    }
  }

  lemma NegatedRatio(n: nat, index: Index)
    ensures (-(n as int)) as real / index as real == -(n as real / index as real)
  {
  }

  lemma LendFlows(m: Market, pool: Pool, user: AccountId, asset: AssetId, amount: nat, a: AssetId, r: Pool)
    requires user.User? && a in m.pools && (a == asset ==> r == pool)
    ensures var m' := Lend(m, pool, user, asset, amount).0;
            a in m'.pools && Flows(m, m', a, r, 0)
  {
    var (m', out) := Lend(m, pool, user, asset, amount);
    PalletBalance(m.ledger, LendingPallet, asset, user, amount, a);
    if out == Done {
      CreditExposure(m.debts, pool.totalDebtIndex, asset, user, amount, a);
      assert 0 as real / pool.totalSupplyIndex as real == 0.0;
    }
  }

  lemma TakeBackFlows(m: Market, pool: Pool, user: AccountId, asset: AssetId, paid: nat, a: AssetId, r: Pool)
    requires user.User? && a in m.pools && (a == asset ==> r == pool)
    requires (asset, user) in m.debts.records && TakeBack(m, pool, user, asset, paid).1 != Panicked
    ensures var m' := TakeBack(m, pool, user, asset, paid).0;
            a in m'.pools && Flows(m, m', a, r, 0)
  {
    var (m', out) := TakeBack(m, pool, user, asset, paid);
    PalletBalance(m.ledger, user, asset, LendingPallet, paid, a);
    if out == Done {
      DebitExposure(m.debts, pool.totalDebtIndex, asset, user, paid, a);
      assert 0 as real / pool.totalSupplyIndex as real == 0.0;
      NegatedRatio(paid, pool.totalDebtIndex);
    }
  }

  lemma SettleFlows(m: Market, payPool: Pool, getPool: Pool, target: AccountId, pay: AssetId, get: AssetId, paid: nat, seized: nat, a: AssetId, r: Pool)
    requires a in m.pools && (a == pay ==> r == payPool) && (a == get ==> r == getPool)
    requires (get, target) in m.supplies.records && (pay, target) in m.debts.records
    requires Settle(m, payPool, getPool, target, pay, get, paid, seized).1 == Done
    ensures var m' := Settle(m, payPool, getPool, target, pay, get, paid, seized).0;
            && a in m'.pools
            && m'.pools[a] == (if a == pay || a == get then r else m.pools[a])
            && m'.ledger == m.ledger
            && Exposure(m'.supplies, a) <= Exposure(m.supplies, a)
            && Exposure(m'.debts, a) <= Exposure(m.debts, a)
  {
    DebitExposure(m.supplies, getPool.totalSupplyIndex, get, target, seized, a);
    DebitExposure(m.debts, payPool.totalDebtIndex, pay, target, paid, a);
    RatioNonNegative(seized, getPool.totalSupplyIndex);
    RatioNonNegative(paid, payPool.totalDebtIndex);
  }

  /** What a liquidation released from an asset's pool cash without its totals: seized less paid. */
  ghost function Released(out: Outcome, a: AssetId, get: AssetId, seized: nat, pay: AssetId, paid: nat): int {
    (if out == Done && a == get then seized else 0) - (if out == Done && a == pay then paid else 0)
  }

  lemma SeizeFlows(m: Market, payPool: Pool, getPool: Pool, user: AccountId, target: AccountId, pay: AssetId, get: AssetId, paid: nat, a: AssetId, r: Pool)
    requires user.User? && a in m.pools && (a == pay ==> r == payPool) && (a == get ==> r == getPool)
    requires Price(m.ledger, get) > 0 && getPool.discountFactor > 0
    requires (get, target) in m.supplies.records && (pay, target) in m.debts.records
    requires Seize(m, payPool, getPool, user, target, pay, get, paid).1 != Panicked
    ensures var (m', out) := Seize(m, payPool, getPool, user, target, pay, get, paid);
            a in m'.pools && Flows(m, m', a, r, Released(out, a, get, SeizedAmount(m, getPool, pay, get, paid), pay, paid))
  {
    var (m', out) := Seize(m, payPool, getPool, user, target, pay, get, paid);
    var seized := SeizedAmount(m, getPool, pay, get, paid);
    var l1 := Transfer(m.ledger, user, pay, LendingPallet, paid).0;
    PalletBalance(m.ledger, user, pay, LendingPallet, paid, a);
    PalletBalance(l1, LendingPallet, get, user, seized, a);
    if out == Done {
      var m2 := m.(ledger := Transfer(l1, LendingPallet, get, user, seized).0);
      SettleFlows(m2, payPool, getPool, target, pay, get, paid, seized, a, r);
      SettledFlows(m, m', a, r, a == pay || a == get, Released(out, a, get, seized, pay, paid));
    }
  }

  lemma SettledFlows(m: Market, m': Market, a: AssetId, r: Pool, renewed: bool, released: int)
    requires a in m.pools && a in m'.pools
    requires m'.pools[a] == if renewed then r else m.pools[a]
    requires Exposure(m'.supplies, a) <= Exposure(m.supplies, a)
    requires Exposure(m'.debts, a) <= Exposure(m.debts, a)
    requires Balance(m.ledger, a, LendingPallet) <= Balance(m'.ledger, a, LendingPallet) + released
    ensures Flows(m, m', a, r, released)
  {
    assert 0 as real / r.totalSupplyIndex as real == 0.0;
    assert 0 as real / r.totalDebtIndex as real == 0.0;
  }

  // ---------- whole calls flow ----------

  lemma SupplierCaughtUp(m: Market, pool: Pool, user: AccountId, asset: AssetId, a: AssetId)
    ensures Exposure(AccrueSupplier(m, pool, user, asset).supplies, a) <= Exposure(m.supplies, a)
  {
    AccrueUserExposure(m.supplies, pool.totalSupplyIndex, asset, user, a);
  }

  lemma BorrowerCaughtUp(m: Market, pool: Pool, user: AccountId, asset: AssetId, a: AssetId)
    ensures Exposure(AccrueBorrower(m, pool, user, asset).debts, a) <= Exposure(m.debts, a)
  {
    AccrueUserExposure(m.debts, pool.totalDebtIndex, asset, user, a);
  }

  lemma WithdrawFlows(m: Market, pool: Pool, sc: Scale, user: AccountId, asset: AssetId, amount: nat, a: AssetId, r: Pool)
    requires user.User? && a in m.pools && (a == asset ==> r == pool)
    requires WithdrawPool(m, pool, sc, user, asset, amount).1 != Panicked
    ensures var m' := WithdrawPool(m, pool, sc, user, asset, amount).0;
            a in m'.pools && Flows(m, m', a, r, 0)
  {
    var m1 := AccrueSupplier(m, pool, user, asset);
    SupplierCaughtUp(m, pool, user, asset, a);
    NoFlow(m, m1, a, r);
    if (asset, user) in m1.supplies.records {
      var paid := Min(amount, m1.supplies.records[(asset, user)].amount);
      if WithdrawCheck(m1, pool, sc, user, asset, paid) == Done {
        PayOutFlows(m1, pool, user, asset, paid, a, r);
        FlowsAfterAccrue(m, m1, PayOut(m1, pool, user, asset, paid).0, a, r, 0);
      }
    }
  }

  lemma BorrowFlows(m: Market, pool: Pool, sc: Scale, user: AccountId, asset: AssetId, amount: nat, a: AssetId, r: Pool)
    requires user.User? && a in m.pools && (a == asset ==> r == pool)
    ensures var m' := BorrowPool(m, pool, sc, user, asset, amount).0;
            a in m'.pools && Flows(m, m', a, r, 0)
  {
    var m1 := AccrueBorrower(m, pool, user, asset);
    BorrowerCaughtUp(m, pool, user, asset, a);
    NoFlow(m, m, a, r);
    NoFlow(m, m1, a, r);
    if BorrowCheck(m1, sc, user, asset, amount) == Done {
      LendFlows(m1, pool, user, asset, amount, a, r);
      FlowsAfterAccrue(m, m1, Lend(m1, pool, user, asset, amount).0, a, r, 0);
    }
  }

  lemma RepayFlows(m: Market, pool: Pool, user: AccountId, asset: AssetId, amount: nat, a: AssetId, r: Pool)
    requires user.User? && a in m.pools && (a == asset ==> r == pool)
    requires RepayPool(m, pool, user, asset, amount).1 != Panicked
    ensures var m' := RepayPool(m, pool, user, asset, amount).0;
            a in m'.pools && Flows(m, m', a, r, 0)
  {
    var m1 := AccrueBorrower(m, pool, user, asset);
    BorrowerCaughtUp(m, pool, user, asset, a);
    NoFlow(m, m1, a, r);
    if (asset, user) in m1.debts.records {
      var paid := Min(amount, m1.debts.records[(asset, user)].amount);
      TakeBackFlows(m1, pool, user, asset, paid, a, r);
      FlowsAfterAccrue(m, m1, TakeBack(m1, pool, user, asset, paid).0, a, r, 0);
    }
  }

  lemma LiquidateFlows(m: Market, payPool: Pool, getPool: Pool, sc: Scale, user: AccountId, target: AccountId, pay: AssetId, get: AssetId, amount: nat, a: AssetId, r: Pool)
    requires user.User? && a in m.pools && (a == pay ==> r == payPool) && (a == get ==> r == getPool)
    requires LiquidatePools(m, payPool, getPool, sc, user, target, pay, get, amount).1 != Panicked
    ensures var (m', out) := LiquidatePools(m, payPool, getPool, sc, user, target, pay, get, amount);
            && a in m'.pools
            && (out == Done ==> Seizable(m, getPool, target, pay, get)
                                && Flows(m, m', a, r, Released(out, a, get, Seizure(m, payPool, getPool, target, pay, get, amount),
                                                               pay, Payment(m, payPool, getPool, target, pay, get, amount))))
            && (out != Done ==> Flows(m, m', a, r, 0))
  {
    var m1 := AccrueTarget(m, payPool, getPool, target, pay, get);
    SupplierCaughtUp(m, getPool, target, get, a);
    BorrowerCaughtUp(AccrueSupplier(m, getPool, target, get), payPool, target, pay, a);
    NoFlow(m, m1, a, r);
    LiquidateCheckIs(m1, getPool, sc, target, pay, get);
    if LiquidateCheck(m1, getPool, sc, target, pay, get) == Done {
      var paid := PaidAmount(m1, getPool, target, pay, get, amount);
      var (m', out) := Seize(m1, payPool, getPool, user, target, pay, get, paid);
      SeizeFlows(m1, payPool, getPool, user, target, pay, get, paid, a, r);
      FlowsAfterAccrue(m, m1, m', a, r, Released(out, a, get, SeizedAmount(m1, getPool, pay, get, paid), pay, paid));
    }
  }

  // ---------- overwriting a pool ----------

  /** A book without a record of an asset has no claims on it, and one with a record has some. */
  lemma NoExposureIff(b: Book, limits: Limits, asset: AssetId)
    requires BookOk(b, limits)
    ensures Exposure(b, asset) <= 0.0 <==> forall user :: (asset, user) !in b.records
  {
    if user :| (asset, user) in b.records {
      assert RecordFits(b, limits, asset, user);
      ExposureOfWithin(b, asset, user);
      PositiveRatio(b.records[(asset, user)].amount, b.records[(asset, user)].index);
    } else {
      assert ExposuresOf(b, asset) == map[];
    }
  }

  lemma PositiveRatio(n: nat, index: Index)
    requires 0 < n
    ensures 0.0 < n as real / index as real
  {
  }

  /** After `init_pool` the fresh pool covers what its users may claim exactly when nobody has a record
      of the asset: it starts with empty totals and forgets those of a pool it overwrites. */
  lemma InitPoolForgetsNothingIff(m: Market, now: nat, id: AssetId, canBeCollateral: bool)
    requires Inv(m, now)
    ensures PoolBounded(InitPool(m, now, id, canBeCollateral), id, Untouched)
            <==> forall user :: (id, user) !in m.supplies.records && (id, user) !in m.debts.records
    ensures PoolBounded(InitPool(m, now, id, canBeCollateral), id, Untouched) ==> Inv(InitPool(m, now, id, canBeCollateral), now)
  {
    var m' := InitPool(m, now, id, canBeCollateral);
    InitPoolKeepsInvIff(m, now, id, canBeCollateral);
    NoExposureIff(m.supplies, ScaleOf(m, now).supply, id);
    NoExposureIff(m.debts, ScaleOf(m, now).debt, id);
    FreshPoolBounded(m', id);
  }

  lemma FreshPoolBounded(m: Market, id: AssetId)
    requires id in m.pools && m.pools[id].supply == m.pools[id].debt == 0
    requires m.pools[id].totalSupplyIndex == m.pools[id].totalDebtIndex == D
    ensures PoolBounded(m, id, Untouched) <==> Exposure(m.supplies, id) <= 0.0 && Exposure(m.debts, id) <= 0.0
  {
    ExposureNonNegative(m.supplies, id);
    ExposureNonNegative(m.debts, id);
    assert 0 as real * 1.0 == 0.0;
  }

  // ---------- what the cash bound is for ----------

  /** Where liquidations have not seized more of an asset than they paid in, a positive amount that
      passes the liquidity check is covered by the pallet's balance. */
  lemma CheckedPayoutIsFunded(m: Market, now: nat, asset: AssetId, t: Tally, amount: nat)
    requires asset in m.pools && m.pools[asset].lastUpdated <= now
    requires PoolBounded(m, asset, t) && t.seized <= t.paid
    requires Accrue(m.pools[asset], now).debt + amount <= Accrue(m.pools[asset], now).supply
    ensures amount <= Balance(m.ledger, asset, LendingPallet)
  {
    SuppliersGetAtMostDebtorsPay(m.pools[asset], now);
  }

  lemma BorrowIsFunded(m: Market, now: nat, user: AccountId, asset: AssetId, amount: nat, t: Tally)
    requires Inv(m, now) && user.User? && asset in m.pools && 0 < amount
    requires PoolBounded(m, asset, t) && t.seized <= t.paid
    ensures Borrow(m, now, user, asset, amount).1 != Failed(TransferFailed)
  {
    var pool := Accrue(m.pools[asset], now);
    assert PoolOk(m.pools[asset], now);
    if pool.debt + amount <= pool.supply {
      CheckedPayoutIsFunded(m, now, asset, t, amount);
    }
  }

  lemma WithdrawPoolIsFunded(m: Market, pool: Pool, sc: Scale, user: AccountId, asset: AssetId, amount: nat)
    requires BooksOk(m, sc) && Current(sc, asset, pool) && user.User? && 0 < amount
    requires pool.supply - pool.debt <= Balance(m.ledger, asset, LendingPallet)
    ensures WithdrawPool(m, pool, sc, user, asset, amount).1 != Failed(TransferFailed)
  {
    var m1 := AccrueSupplier(m, pool, user, asset);
    AccrueSupplierMoves(m, sc, pool, user, asset, asset);
    if (asset, user) in m1.supplies.records {
      var paid := Min(amount, m1.supplies.records[(asset, user)].amount);
      assert RecordFits(m1.supplies, sc.supply, asset, user);
      if WithdrawCheck(m1, pool, sc, user, asset, paid) == Done {
        WithdrawCheckIs(m1, pool, sc, user, asset, paid);
        TransferMoves(m.ledger, LendingPallet, asset, user, paid, asset, user);
      }
    }
  }

  lemma WithdrawIsFunded(m: Market, now: nat, user: AccountId, asset: AssetId, amount: nat, t: Tally)
    requires Inv(m, now) && user.User? && asset in m.pools && 0 < amount
    requires PoolBounded(m, asset, t) && t.seized <= t.paid
    ensures Withdraw(m, now, user, asset, amount).1 != Failed(TransferFailed)
  {
    var pool := Accrue(m.pools[asset], now);
    AccruedIsCurrent(m, now, asset);
    assert PoolOk(m.pools[asset], now);
    SuppliersGetAtMostDebtorsPay(m.pools[asset], now);
    WithdrawPoolIsFunded(m, pool, ScaleOf(m, now), user, asset, amount);
  }

  // ---------- what a borrower owes against what the pool records ----------

  /** An amount exceeds what is recorded by less than 1 + n * growth. */
  ghost predicate NearlyRecorded(amount: real, recorded: nat, n: nat, growth: real) {
    amount < recorded as real + 1.0 + n as real * growth
  }

  /** The product of the multipliers, the accrual pending at `now` included. */
  ghost function DebtGrowth(p: Pool, now: nat, t: Tally): real {
    t.debtGrowth * Factor(DebtMultiplier(p, Elapsed(p, now)))
  }

  lemma ClaimsNearlyRecorded(p: Pool, now: nat, b: Book, asset: AssetId, t: Tally)
    requires p.lastUpdated <= now && Covered(p.totalDebtIndex, Exposure(b, asset), p.debt, t.accruals, t.debtGrowth)
    ensures NearlyRecorded(Claims(b, asset, EffectiveDebtIndex(p, now)), Accrue(p, now).debt, t.accruals, DebtGrowth(p, now, t))
  {
    NoTimeNoGrowth(p);
    MulOne(p.debt);
    AccrualGap(p.debt, p.totalDebtIndex, EffectiveDebtIndex(p, now), Exposure(b, asset), DebtMultiplier(p, Elapsed(p, now)), t.accruals, t.debtGrowth);
  }

  /** One user's debt is part of the claims. */
  lemma OwedNearlyRecorded(m: Market, now: nat, asset: AssetId, user: AccountId, recorded: nat, n: nat, growth: real)
    requires asset in m.pools
    requires NearlyRecorded(Claims(m.debts, asset, EffectiveDebtIndex(m.pools[asset], now)), recorded, n, growth)
    ensures NearlyRecorded(DebtOwed(m, now, asset, user) as real, recorded, n, growth)
    ensures n == 0 ==> DebtOwed(m, now, asset, user) <= recorded
  {
    OwedWithinClaims(m.debts, DebtLimits(m.pools, now), asset, user);
  }

  /** A borrower's debt, caught up, exceeds the accrued pool's recorded debt by less than 1 + N * M. */
  lemma DebtOwedNearlyRecorded(m: Market, now: nat, asset: AssetId, user: AccountId, t: Tally)
    requires asset in m.pools && m.pools[asset].lastUpdated <= now && PoolBounded(m, asset, t)
    ensures NearlyRecorded(DebtOwed(m, now, asset, user) as real, Accrue(m.pools[asset], now).debt, t.accruals,
                           DebtGrowth(m.pools[asset], now, t))
    ensures t.accruals == 0 ==> DebtOwed(m, now, asset, user) <= Accrue(m.pools[asset], now).debt
  {
    var p := m.pools[asset];
    ClaimsNearlyRecorded(p, now, m.debts, asset, t);
    OwedNearlyRecorded(m, now, asset, user, Accrue(p, now).debt, t.accruals, DebtGrowth(p, now, t));
  }

  /** So until a pool's first committed accrual, when its debt index is still one, what a borrower
      owes is within what the accrued pool records, and no repayment traps. */
  lemma RepaymentsCoveredAtIndexOne(m: Market, now: nat, asset: AssetId, user: AccountId, amount: nat, t: Tally)
    requires Inv(m, now) && asset in m.pools && PoolBounded(m, asset, t)
    requires m.pools[asset].totalDebtIndex == D
    ensures DebtOwed(m, now, asset, user) <= Accrue(m.pools[asset], now).debt
    ensures Repay(m, now, user, asset, amount).1 != Panicked
  {
    assert PoolOk(m.pools[asset], now);
    DebtOwedNearlyRecorded(m, now, asset, user, t);
    RepayEffect(m, now, user, asset, amount);
  }
}
