// The reachable-state invariant is kept by every lending call on every outcome, and a call moves
// the views of exactly one user by exactly its own amounts.

module LendingInvariant {
  import opened Identifiers
  import opened FixedPoint
  import opened AssetLedger
  import opened InterestModel
  import opened UserBooks
  import opened LendingMarket
  import opened LendingSteps

  // ---------- pools ----------

  /** `q` may replace the stored `p` without moving a limit or a price. */
  ghost predicate InScale(p: Pool, q: Pool, now: nat) {
    && EffectiveSupplyIndex(q, now) == EffectiveSupplyIndex(p, now)
    && EffectiveDebtIndex(q, now) == EffectiveDebtIndex(p, now)
    && q.safeFactor == p.safeFactor
    && PoolOk(q, now)
  }

  /** Pools were at most replaced in scale. */
  ghost predicate PoolsKept(m: Market, m': Market, now: nat) {
    && m'.threshold == m.threshold
    && m'.ledger.price == m.ledger.price
    && m'.pools.Keys == m.pools.Keys
    && forall a | a in m.pools :: InScale(m.pools[a], m'.pools[a], now)
  }

  lemma KeptSupplyLimits(pools: map<AssetId, Pool>, pools': map<AssetId, Pool>, now: nat)
    requires pools'.Keys == pools.Keys && forall a | a in pools :: InScale(pools[a], pools'[a], now)
    ensures SupplyLimits(pools', now) == SupplyLimits(pools, now)
  {
  }

  lemma KeptDebtLimits(pools: map<AssetId, Pool>, pools': map<AssetId, Pool>, now: nat)
    requires pools'.Keys == pools.Keys && forall a | a in pools :: InScale(pools[a], pools'[a], now)
    ensures DebtLimits(pools', now) == DebtLimits(pools, now)
  {
  }

  lemma KeptPrices(pools: map<AssetId, Pool>, pools': map<AssetId, Pool>, ledger: Ledger, ledger': Ledger)
    requires pools'.Keys == pools.Keys && ledger'.price == ledger.price
    requires forall a | a in pools :: pools'[a].safeFactor == pools[a].safeFactor
    ensures Prices(pools', ledger') == Prices(pools, ledger)
    ensures SafePrices(pools', ledger') == SafePrices(pools, ledger)
  {
  }

  lemma KeptScale(m: Market, m': Market, now: nat)
    requires PoolsKept(m, m', now)
    ensures ScaleOf(m', now) == ScaleOf(m, now)
  {
    KeptSupplyLimits(m.pools, m'.pools, now);
    KeptDebtLimits(m.pools, m'.pools, now);
    forall a | a in m.pools ensures m'.pools[a].safeFactor == m.pools[a].safeFactor {
      assert InScale(m.pools[a], m'.pools[a], now);
    }
    KeptPrices(m.pools, m'.pools, m.ledger, m'.ledger);
  }

  lemma SamePoolsKept(m: Market, m': Market, now: nat)
    requires PoolsOk(m, now)
    requires m'.pools == m.pools && m'.ledger.price == m.ledger.price && m'.threshold == m.threshold
    ensures PoolsKept(m, m', now)
  {
  }

  lemma OnePoolKept(m: Market, m': Market, now: nat, asset: AssetId, q: Pool)
    requires PoolsOk(m, now) && asset in m.pools && InScale(m.pools[asset], q, now)
    requires m'.pools == m.pools[asset := q]
    requires m'.ledger.price == m.ledger.price && m'.threshold == m.threshold
    ensures PoolsKept(m, m', now)
  {
  }

  /** An accrued pool, with new totals that leave no debt without supply, is in scale. */
  lemma AccruedInScale(p: Pool, now: nat, supply: nat, debt: nat)
    requires PoolOk(p, now) && (supply == 0 ==> debt == 0)
    ensures InScale(p, Accrue(p, now).(supply := supply, debt := debt), now)
  {
    EffectiveIsAccrued(p, now, supply, debt);
  }

  lemma AccruedPoolsKept(m: Market, m': Market, now: nat, get: AssetId, pay: AssetId)
    requires PoolsOk(m, now) && get in m.pools && pay in m.pools
    requires m'.pools == m.pools[get := Accrue(m.pools[get], now)][pay := Accrue(m.pools[pay], now)]
    requires m'.ledger.price == m.ledger.price && m'.threshold == m.threshold
    ensures PoolsKept(m, m', now)
  {
    assert PoolOk(m.pools[get], now) && PoolOk(m.pools[pay], now);
    AccrueKeepsPoolOk(m.pools[get], now);
    AccrueKeepsPoolOk(m.pools[pay], now);
    forall a | a in m.pools ensures InScale(m.pools[a], m'.pools[a], now) {
      assert PoolOk(m.pools[a], now);
    }
  }

  /** Accrual itself never leaves debt without supply. */
  lemma AccrueKeepsPoolOk(p: Pool, now: nat)
    requires PoolOk(p, now)
    ensures PoolOk(Accrue(p, now), now) && Accrue(p, now).lastUpdated == now
    ensures InScale(p, Accrue(p, now), now)
  {
  }

  /** The bound on retained interest holds for every reachable pool: one without supply has no debt
      and accrues nothing on either side. */
  lemma ReachablePoolRetainsLittle(p: Pool, now: nat)
    requires PoolOk(p, now)
    ensures 0 <= DebtInterest(p, now) - SupplyInterest(p, now)
    ensures (DebtInterest(p, now) - SupplyInterest(p, now) - 1) * D * D
            < Elapsed(p, now) * (p.supply * (DebtRate(p) + D))
  {
    SuppliersGetAtMostDebtorsPay(p, now);
    if p.supply > 0 {
      RetainedInterestIsSmall(p, now);
    } else {
      InterestOf(p, now);
      assert DebtRate(p) * p.debt == 0;
      assert p.supply * (DebtRate(p) + D) == 0;
    }
  }

  lemma AccruedIsCurrent(m: Market, now: nat, asset: AssetId)
    requires PoolsOk(m, now) && asset in m.pools
    ensures Current(ScaleOf(m, now), asset, Accrue(m.pools[asset], now))
    ensures PoolOk(Accrue(m.pools[asset], now), now)
  {
    assert PoolOk(m.pools[asset], now);
    AccrueKeepsPoolOk(m.pools[asset], now);
    EffectiveIsAccrued(m.pools[asset], now, 0, 0);
  }

  /** The pools after a call: unchanged unless it is done, then one accrued pool with new totals. */
  ghost predicate Committed(m: Market, m': Market, out: Outcome, asset: AssetId, q: Pool) {
    && m'.threshold == m.threshold
    && m'.ledger.price == m.ledger.price
    && m'.pools == if out == Done then m.pools[asset := q] else m.pools
  }

  lemma CommittedKeepsPools(m: Market, m': Market, now: nat, out: Outcome, asset: AssetId, supply: nat, debt: nat)
    requires PoolsOk(m, now) && asset in m.pools
    requires out == Done ==> (supply == 0 ==> debt == 0)
    requires Committed(m, m', out, asset, Accrue(m.pools[asset], now).(supply := supply, debt := debt))
    ensures PoolsKept(m, m', now)
  {
    if out == Done {
      assert PoolOk(m.pools[asset], now);
      AccruedInScale(m.pools[asset], now, supply, debt);
      OnePoolKept(m, m', now, asset, Accrue(m.pools[asset], now).(supply := supply, debt := debt));
    } else {
      SamePoolsKept(m, m', now);
    }
  }

  lemma WithdrawCheckIs(m: Market, pool: Pool, sc: Scale, user: AccountId, asset: AssetId, paid: nat)
    requires WithdrawCheck(m, pool, sc, user, asset, paid) == Done
    ensures pool.debt + paid <= pool.supply
  {
  }

  /** The totals a withdrawal commits; its cash check left debt covered. */
  lemma WithdrawTotals(m: Market, pool: Pool, sc: Scale, user: AccountId, asset: AssetId, amount: nat) returns (supply: nat)
    ensures var (m', out) := WithdrawPool(m, pool, sc, user, asset, amount);
            && Committed(m, m', out, asset, pool.(supply := supply, debt := pool.debt))
            && (out == Done ==> pool.debt <= supply <= pool.supply)
  {
    supply := 0;
    var m1 := AccrueSupplier(m, pool, user, asset);
    if (asset, user) in m1.supplies.records {
      var paid := Min(amount, m1.supplies.records[(asset, user)].amount);
      if WithdrawCheck(m1, pool, sc, user, asset, paid) == Done {
        supply := pool.supply - paid;
      }
    }
  }

  lemma BorrowTotals(m: Market, pool: Pool, sc: Scale, user: AccountId, asset: AssetId, amount: nat)
    ensures var (m', out) := BorrowPool(m, pool, sc, user, asset, amount);
            && Committed(m, m', out, asset, pool.(supply := pool.supply, debt := pool.debt + amount))
            && (out == Done ==> pool.debt + amount <= pool.supply)
  {
  }

  lemma RepayTotals(m: Market, pool: Pool, user: AccountId, asset: AssetId, amount: nat) returns (debt: nat)
    ensures var (m', out) := RepayPool(m, pool, user, asset, amount);
            && Committed(m, m', out, asset, pool.(supply := pool.supply, debt := debt))
            && (out == Done ==> debt <= pool.debt)
  {
    debt := 0;
    var m1 := AccrueBorrower(m, pool, user, asset);
    if (asset, user) in m1.debts.records {
      var paid := Min(amount, m1.debts.records[(asset, user)].amount);
      debt := if paid <= pool.debt then pool.debt - paid else 0;
    }
  }

  lemma SupplyKeepsPools(m: Market, now: nat, user: AccountId, asset: AssetId, amount: nat)
    requires PoolsOk(m, now)
    ensures PoolsKept(m, Supply(m, now, user, asset, amount).0, now)
  {
    var (m', out) := Supply(m, now, user, asset, amount);
    if asset in m.pools {
      var pool := Accrue(m.pools[asset], now);
      assert PoolOk(m.pools[asset], now);
      AccrueKeepsPoolOk(m.pools[asset], now);
      CommittedKeepsPools(m, m', now, out, asset, pool.supply + amount, pool.debt);
    } else {
      SamePoolsKept(m, m', now);
    }
  }

  lemma WithdrawKeepsPools(m: Market, now: nat, user: AccountId, asset: AssetId, amount: nat)
    requires PoolsOk(m, now)
    ensures PoolsKept(m, Withdraw(m, now, user, asset, amount).0, now)
  {
    var (m', out) := Withdraw(m, now, user, asset, amount);
    if asset in m.pools {
      var pool := Accrue(m.pools[asset], now);
      var supply := WithdrawTotals(m, pool, ScaleOf(m, now), user, asset, amount);
      CommittedKeepsPools(m, m', now, out, asset, supply, pool.debt);
    } else {
      SamePoolsKept(m, m', now);
    }
  }

  lemma BorrowKeepsPools(m: Market, now: nat, user: AccountId, asset: AssetId, amount: nat)
    requires PoolsOk(m, now)
    ensures PoolsKept(m, Borrow(m, now, user, asset, amount).0, now)
  {
    var (m', out) := Borrow(m, now, user, asset, amount);
    if asset in m.pools {
      var pool := Accrue(m.pools[asset], now);
      BorrowTotals(m, pool, ScaleOf(m, now), user, asset, amount);
      CommittedKeepsPools(m, m', now, out, asset, pool.supply, pool.debt + amount);
    } else {
      SamePoolsKept(m, m', now);
    }
  }

  lemma RepayKeepsPools(m: Market, now: nat, user: AccountId, asset: AssetId, amount: nat)
    requires PoolsOk(m, now)
    ensures PoolsKept(m, Repay(m, now, user, asset, amount).0, now)
  {
    var (m', out) := Repay(m, now, user, asset, amount);
    if asset in m.pools {
      var pool := Accrue(m.pools[asset], now);
      assert PoolOk(m.pools[asset], now);
      AccrueKeepsPoolOk(m.pools[asset], now);
      var debt := RepayTotals(m, pool, user, asset, amount);
      CommittedKeepsPools(m, m', now, out, asset, pool.supply, debt);
    } else {
      SamePoolsKept(m, m', now);
    }
  }

  lemma LiquidateTotals(m: Market, payPool: Pool, getPool: Pool, sc: Scale, user: AccountId, target: AccountId, pay: AssetId, get: AssetId, amount: nat)
    ensures var (m', out) := LiquidatePools(m, payPool, getPool, sc, user, target, pay, get, amount);
            && m'.threshold == m.threshold
            && m'.ledger.price == m.ledger.price
            && m'.pools == if out == Done then m.pools[get := getPool][pay := payPool] else m.pools
  {
    var m1 := AccrueTarget(m, payPool, getPool, target, pay, get);
    LiquidateCheckIs(m1, getPool, sc, target, pay, get);
    if LiquidateCheck(m1, getPool, sc, target, pay, get) == Done {
      SeizeTotals(m1, payPool, getPool, user, target, pay, get, PaidAmount(m1, getPool, target, pay, get, amount));
    }
  }

  lemma SeizeTotals(m: Market, payPool: Pool, getPool: Pool, user: AccountId, target: AccountId, pay: AssetId, get: AssetId, paid: nat)
    requires Price(m.ledger, get) > 0 && getPool.discountFactor > 0
    ensures var (m', out) := Seize(m, payPool, getPool, user, target, pay, get, paid);
            && m'.threshold == m.threshold
            && m'.ledger.price == m.ledger.price
            && m'.pools == if out == Done then m.pools[get := getPool][pay := payPool] else m.pools
  {
  }

  lemma LiquidateKeepsPools(m: Market, now: nat, user: AccountId, target: AccountId, pay: AssetId, get: AssetId, amount: nat)
    requires PoolsOk(m, now)
    ensures PoolsKept(m, Liquidate(m, now, user, target, pay, get, amount).0, now)
  {
    var (m', out) := Liquidate(m, now, user, target, pay, get, amount);
    if pay in m.pools && get in m.pools {
      LiquidateTotals(m, Accrue(m.pools[pay], now), Accrue(m.pools[get], now), ScaleOf(m, now), user, target, pay, get, amount);
    }
    if out == Done {
      AccruedPoolsKept(m, m', now, get, pay);
    } else {
      SamePoolsKept(m, m', now);
    }
  }

  // ---------- whole calls ----------

  /** One user's supply of `get` and debt of `pay` moved; every other answer of the views, the
      scale they are read at, and the invariant stay. */
  ghost predicate Effect(m: Market, m': Market, now: nat, user: AccountId, get: AssetId, supplied: int, pay: AssetId, owed: int) {
    && Inv(m', now)
    && ScaleOf(m', now) == ScaleOf(m, now)
    && Moved(m, m', ScaleOf(m, now), user, get, supplied, pay, owed)
  }

  lemma Conclude(m: Market, m': Market, now: nat, user: AccountId, get: AssetId, supplied: int, pay: AssetId, owed: int)
    requires PoolsOk(m, now) && PoolsKept(m, m', now)
    requires Moved(m, m', ScaleOf(m, now), user, get, supplied, pay, owed)
    ensures Effect(m, m', now, user, get, supplied, pay, owed)
  {
    KeptScale(m, m', now);
    forall a | a in m'.pools ensures PoolOk(m'.pools[a], now) {
      assert InScale(m.pools[a], m'.pools[a], now);
    }
  }

  /** The effect read off the views: any user, any asset. */
  lemma ViewsMoveExactly(m: Market, m': Market, now: nat, user: AccountId, get: AssetId, supplied: int, pay: AssetId, owed: int, asset: AssetId, other: AccountId)
    requires Effect(m, m', now, user, get, supplied, pay, owed)
    ensures SupplyOwed(m', now, asset, other) == SupplyOwed(m, now, asset, other) + (if (asset, other) == (get, user) then supplied else 0)
    ensures DebtOwed(m', now, asset, other) == DebtOwed(m, now, asset, other) + (if (asset, other) == (pay, user) then owed else 0)
  {
    SameOwedElsewhere(m.supplies, m'.supplies, ScaleOf(m, now).supply, get, user);
    SameOwedElsewhere(m.debts, m'.debts, ScaleOf(m, now).debt, pay, user);
  }

  lemma SupplyEffect(m: Market, now: nat, user: AccountId, asset: AssetId, amount: nat)
    requires Inv(m, now)
    ensures var (m', out) := Supply(m, now, user, asset, amount);
            && Effect(m, m', now, user, asset, Added(out, amount), asset, 0)
            && out != Panicked
  {
    var (m', out) := Supply(m, now, user, asset, amount);
    var sc := ScaleOf(m, now);
    if asset in m.pools {
      AccruedIsCurrent(m, now, asset);
      SupplyMoves(m, sc, Accrue(m.pools[asset], now), user, asset, amount);
    } else {
      SameBooks(m, m, sc, user, asset, asset);
    }
    SupplyKeepsPools(m, now, user, asset, amount);
    Conclude(m, m', now, user, asset, Added(out, amount), asset, 0);
  }

  lemma WithdrawEffect(m: Market, now: nat, user: AccountId, asset: AssetId, amount: nat)
    requires Inv(m, now)
    ensures var (m', out) := Withdraw(m, now, user, asset, amount);
            Effect(m, m', now, user, asset, Taken(out, Min(amount, SupplyOwed(m, now, asset, user))), asset, 0)
  {
    var (m', out) := Withdraw(m, now, user, asset, amount);
    var sc := ScaleOf(m, now);
    if asset in m.pools {
      AccruedIsCurrent(m, now, asset);
      WithdrawMoves(m, Accrue(m.pools[asset], now), sc, user, asset, amount);
    } else {
      SameBooks(m, m, sc, user, asset, asset);
    }
    WithdrawKeepsPools(m, now, user, asset, amount);
    Conclude(m, m', now, user, asset, Taken(out, Min(amount, SupplyOwed(m, now, asset, user))), asset, 0);
  }

  lemma BorrowEffect(m: Market, now: nat, user: AccountId, asset: AssetId, amount: nat)
    requires Inv(m, now)
    ensures var (m', out) := Borrow(m, now, user, asset, amount);
            Effect(m, m', now, user, asset, 0, asset, Added(out, amount))
  {
    var (m', out) := Borrow(m, now, user, asset, amount);
    var sc := ScaleOf(m, now);
    if asset in m.pools {
      AccruedIsCurrent(m, now, asset);
      BorrowMoves(m, Accrue(m.pools[asset], now), sc, user, asset, amount);
    } else {
      SameBooks(m, m, sc, user, asset, asset);
    }
    BorrowKeepsPools(m, now, user, asset, amount);
    Conclude(m, m', now, user, asset, 0, asset, Added(out, amount));
  }

  /** A repayment traps exactly when the payment is covered by the payer but exceeds the debt the
      accrued pool records. */
  lemma RepayEffect(m: Market, now: nat, user: AccountId, asset: AssetId, amount: nat)
    requires Inv(m, now)
    ensures var (m', out) := Repay(m, now, user, asset, amount);
            var paid := Min(amount, DebtOwed(m, now, asset, user));
            && (out != Panicked ==> Effect(m, m', now, user, asset, 0, asset, Taken(out, paid)))
            && (out == Panicked <==> 0 < paid <= Balance(m.ledger, asset, user)
                                     && asset in m.pools && Accrue(m.pools[asset], now).debt < paid)
  {
    var (m', out) := Repay(m, now, user, asset, amount);
    var sc := ScaleOf(m, now);
    if asset in m.pools {
      AccruedIsCurrent(m, now, asset);
      RepayMoves(m, Accrue(m.pools[asset], now), sc, user, asset, amount);
    } else {
      SameBooks(m, m, sc, user, asset, asset);
    }
    RepayKeepsPools(m, now, user, asset, amount);
    if out != Panicked {
      Conclude(m, m', now, user, asset, 0, asset, Taken(out, Min(amount, DebtOwed(m, now, asset, user))));
    }
  }

  /** Payment and seizure of a liquidation, from the state before it. */
  predicate CanSeize(m: Market, target: AccountId, pay: AssetId, get: AssetId) {
    pay in m.pools && get in m.pools && Seizable(m, m.pools[get], target, pay, get)
  }

  function PaymentOf(m: Market, now: nat, target: AccountId, pay: AssetId, get: AssetId, amount: nat): nat
    requires CanSeize(m, target, pay, get)
  {
    Payment(m, Accrue(m.pools[pay], now), Accrue(m.pools[get], now), target, pay, get, amount)
  }

  function SeizureOf(m: Market, now: nat, target: AccountId, pay: AssetId, get: AssetId, amount: nat): nat
    requires CanSeize(m, target, pay, get)
  {
    Seizure(m, Accrue(m.pools[pay], now), Accrue(m.pools[get], now), target, pay, get, amount)
  }

  /** In every reachable state a liquidation stays within the target's accrued debt and within the
      close-factor share of the accrued supply. */
  lemma LiquidationWithinLimits(m: Market, now: nat, target: AccountId, pay: AssetId, get: AssetId, amount: nat)
    requires Inv(m, now) && CanSeize(m, target, pay, get)
    ensures PaymentOf(m, now, target, pay, get, amount) <= Min(amount, DebtOwed(m, now, pay, target))
    ensures SeizureOf(m, now, target, pay, get, amount)
            <= MulInt(m.pools[get].closeFactor, SupplyOwed(m, now, get, target))
            <= SupplyOwed(m, now, get, target)
  {
    AccruedIsCurrent(m, now, pay);
    AccruedIsCurrent(m, now, get);
    assert PoolOk(m.pools[get], now);
    LiquidationLimits(m, Accrue(m.pools[pay], now), Accrue(m.pools[get], now), ScaleOf(m, now), target, pay, get, amount);
  }

  /** Both amounts read off the views, prices and pool parameters before the call. */
  lemma AmountsFromViews(m: Market, now: nat, target: AccountId, pay: AssetId, get: AssetId, amount: nat)
    requires Inv(m, now) && CanSeize(m, target, pay, get)
    ensures var g, payPrice, getPrice := m.pools[get], Price(m.ledger, pay), Price(m.ledger, get);
            var payLimit := PayLimit(getPrice, payPrice, g.discountFactor, MulInt(g.closeFactor, SupplyOwed(m, now, get, target)));
            var paid := Min(Min(amount, payLimit), DebtOwed(m, now, pay, target));
            && PaymentOf(m, now, target, pay, get, amount) == paid
            && SeizureOf(m, now, target, pay, get, amount) == GetAmount(getPrice, payPrice, g.discountFactor, paid)
  {
    AccruedIsCurrent(m, now, pay);
    AccruedIsCurrent(m, now, get);
    AccrueTargetMoves(m, ScaleOf(m, now), Accrue(m.pools[pay], now), Accrue(m.pools[get], now), target, pay, get);
  }

  lemma LiquidateEffect(m: Market, now: nat, user: AccountId, target: AccountId, pay: AssetId, get: AssetId, amount: nat)
    requires Inv(m, now)
    ensures var (m', out) := Liquidate(m, now, user, target, pay, get, amount);
            && (out == Done ==> CanSeize(m, target, pay, get)
                                && Effect(m, m', now, target, get, Taken(Done, SeizureOf(m, now, target, pay, get, amount)),
                                          pay, Taken(Done, PaymentOf(m, now, target, pay, get, amount))))
            && (out != Done ==> Effect(m, m', now, target, get, 0, pay, 0))
            && (out == Panicked ==> Price(m.ledger, pay) == 0 || Price(m.ledger, get) == 0)
  {
    hide Moved, BookOk, LiquidatePools, PoolsKept, Accrue;
    var (m', out) := Liquidate(m, now, user, target, pay, get, amount);
    var sc := ScaleOf(m, now);
    LiquidateKeepsPools(m, now, user, target, pay, get, amount);
    InfoDefined(m, now, target);
    if pay in m.pools && get in m.pools {
      AccruedIsCurrent(m, now, pay);
      AccruedIsCurrent(m, now, get);
      assert PoolOk(m.pools[get], now);
      LiquidateMoves(m, Accrue(m.pools[pay], now), Accrue(m.pools[get], now), sc, user, target, pay, get, amount);
    }
    SameBooks(m, m, sc, target, get, pay);
    if out == Done {
      Conclude(m, m', now, target, get, Taken(Done, SeizureOf(m, now, target, pay, get, amount)),
               pay, Taken(Done, PaymentOf(m, now, target, pay, get, amount)));
    } else {
      Conclude(m, m', now, target, get, 0, pay, 0);
    }
  }

  /** In every reachable state the unwrap inside `get_user_info` finds its pool. */
  lemma InfoDefined(m: Market, now: nat, user: AccountId)
    requires Inv(m, now)
    ensures UserInfoDefined(m, user)
  {
    forall a | a in List(m.supplies, user) ensures a in m.pools {
      assert ListMatches(m.supplies, user);
      assert RecordFits(m.supplies, ScaleOf(m, now).supply, a, user);
    }
  }

  // ---------- what else a run can do ----------

  /** Blocks passing keep the invariant: effective indices only grow. */
  lemma BlocksKeepInv(m: Market, now: nat, later: nat)
    requires Inv(m, now) && now <= later
    ensures Inv(m, later)
  {
    forall a | a in m.pools
      ensures PoolOk(m.pools[a], later)
      ensures EffectiveSupplyIndex(m.pools[a], now) <= EffectiveSupplyIndex(m.pools[a], later)
      ensures EffectiveDebtIndex(m.pools[a], now) <= EffectiveDebtIndex(m.pools[a], later)
    {
      assert PoolOk(m.pools[a], now);
      EffectiveGrows(m.pools[a], now, later);
    }
    LimitsMayGrow(m.supplies, ScaleOf(m, now).supply, ScaleOf(m, later).supply);
    LimitsMayGrow(m.debts, ScaleOf(m, now).debt, ScaleOf(m, later).debt);
  }

  /** So does anything that happens to the ledger alone, prices included. */
  lemma LedgerKeepsInv(m: Market, now: nat, ledger: Ledger)
    requires Inv(m, now)
    ensures Inv(m.(ledger := ledger), now)
  {
  }

  lemma NewPoolOk(id: AssetId, canBeCollateral: bool, now: nat)
    ensures PoolOk(NewPool(id, canBeCollateral, now), now)
    ensures EffectiveSupplyIndex(NewPool(id, canBeCollateral, now), now) == D
    ensures EffectiveDebtIndex(NewPool(id, canBeCollateral, now), now) == D
    ensures var p := NewPool(id, canBeCollateral, now);
            && 10 * p.safeFactor == 7 * D && 100 * p.discountFactor == 95 * D && p.closeFactor == D
            && 10_000_000_000 * p.utilizationFactor == 385 * D && 100_000_000_000 * p.initialInterestRate == 385 * D
            && p.enabled && p.canBeCollateral == canBeCollateral && p.asset == id && p.supply == p.debt == 0
  {
  }

  /** `init_pool` overwrites without looking. It keeps the invariant of records and indices exactly when
      no user record of that asset has an index above one; for an id without a pool there is none. It
      may still forget what the records claim: see `InitPoolForgetsNothingIff` in LendingDrift. */
  lemma InitPoolKeepsInvIff(m: Market, now: nat, id: AssetId, canBeCollateral: bool)
    requires Inv(m, now)
    ensures Inv(InitPool(m, now, id, canBeCollateral), now)
            <==> forall user :: ((id, user) in m.supplies.records ==> m.supplies.records[(id, user)].index == D)
                             && ((id, user) in m.debts.records ==> m.debts.records[(id, user)].index == D)
    ensures id !in m.pools ==> Inv(InitPool(m, now, id, canBeCollateral), now)
  {
    var m' := InitPool(m, now, id, canBeCollateral);
    InitPoolScale(m, now, id, canBeCollateral);
    FreshPoolBook(m.supplies, SupplyLimits(m.pools, now), SupplyLimits(m'.pools, now), id);
    FreshPoolBook(m.debts, DebtLimits(m.pools, now), DebtLimits(m'.pools, now), id);
  }

  lemma InitPoolScale(m: Market, now: nat, id: AssetId, canBeCollateral: bool)
    requires PoolsOk(m, now)
    ensures var m' := InitPool(m, now, id, canBeCollateral);
            && PoolsOk(m', now)
            && SupplyLimits(m'.pools, now) == SupplyLimits(m.pools, now)[id := D]
            && DebtLimits(m'.pools, now) == DebtLimits(m.pools, now)[id := D]
  {
    var p := NewPool(id, canBeCollateral, now);
    NewPoolOk(id, canBeCollateral, now);
    OnePoolAdded(m.pools, id, p, now);
    forall a | a in m.pools ensures PoolOk(m.pools[a], now) {
    }
  }

  lemma OnePoolAdded(pools: map<AssetId, Pool>, id: AssetId, p: Pool, now: nat)
    ensures SupplyLimits(pools[id := p], now) == SupplyLimits(pools, now)[id := EffectiveSupplyIndex(p, now)]
    ensures DebtLimits(pools[id := p], now) == DebtLimits(pools, now)[id := EffectiveDebtIndex(p, now)]
  {
  }

  lemma FreshPoolBook(b: Book, limits: Limits, limits': Limits, id: AssetId)
    requires BookOk(b, limits) && limits' == limits[id := D]
    ensures BookOk(b, limits') <==> forall user | (id, user) in b.records :: b.records[(id, user)].index == D
    ensures id !in limits ==> BookOk(b, limits')
  {
  }

  lemma OpeningInv(ledger: Ledger, now: nat)
    ensures Inv(Opening(ledger), now)
  {
  }

  /** Genesis configures each listed pool once more if an id repeats; no record exists yet. */
  lemma {:induction false} GenesisInv(ledger: Ledger, now: nat, ids: seq<AssetId>)
    ensures var m := InitPools(Opening(ledger), now, ids);
            && Inv(m, now) && m.supplies == m.debts == Book(map[], map[])
            && m.ledger == ledger
            && (forall a :: a in m.pools <==> a in ids)
            && (forall a | a in m.pools :: m.pools[a] == NewPool(a, true, now))
  {
    if ids == [] {
      OpeningInv(ledger, now);
    } else {
      var front := ids[..|ids| - 1];
      assert ids == front + [ids[|ids| - 1]];
      GenesisInv(ledger, now, front);
      InitPoolKeepsInvIff(InitPools(Opening(ledger), now, front), now, ids[|ids| - 1], true);
    }
  }
}
