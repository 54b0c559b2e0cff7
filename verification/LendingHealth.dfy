// What the health checks are worth after the fact, what a liquidation does to its target, and
// which calls can trap.

module LendingHealth {
  import opened Identifiers
  import opened FixedPoint
  import opened AssetLedger
  import opened InterestModel
  import opened UserBooks
  import opened LendingMarket
  import opened LendingSteps
  import opened LendingInvariant

  // ---------- the views and the write path ----------

  /** The view functions answer exactly what accruing the pool and then the user would store. */
  lemma ViewsAreWhatAccrualStores(m: Market, now: nat, asset: AssetId, user: AccountId)
    requires Inv(m, now) && asset in m.pools
    ensures var pool := Accrue(m.pools[asset], now);
            var s, d := AccrueSupplier(m, pool, user, asset), AccrueBorrower(m, pool, user, asset);
            && ((asset, user) in m.supplies.records ==> s.supplies.records[(asset, user)].amount == SupplyOwed(m, now, asset, user))
            && ((asset, user) in m.debts.records ==> d.debts.records[(asset, user)].amount == DebtOwed(m, now, asset, user))
  {
    var pool := Accrue(m.pools[asset], now);
    AccruedIsCurrent(m, now, asset);
    AccrueSupplierMoves(m, ScaleOf(m, now), pool, user, asset, asset);
    AccrueBorrowerMoves(m, ScaleOf(m, now), pool, user, asset, asset);
  }

  /** Neither catching up a user while the stored pool is stale nor committing the accrued pool
      changes any answer in that block. */
  lemma AccruingIsInvisible(m: Market, now: nat, asset: AssetId, user: AccountId, a: AssetId, u: AccountId)
    requires Inv(m, now) && asset in m.pools
    ensures var pool := Accrue(m.pools[asset], now);
            var s, d, c := AccrueSupplier(m, pool, user, asset), AccrueBorrower(m, pool, user, asset), m.(pools := m.pools[asset := pool]);
            && Inv(s, now) && Inv(d, now) && Inv(c, now)
            && SupplyOwed(s, now, a, u) == SupplyOwed(d, now, a, u) == SupplyOwed(c, now, a, u) == SupplyOwed(m, now, a, u)
            && DebtOwed(s, now, a, u) == DebtOwed(d, now, a, u) == DebtOwed(c, now, a, u) == DebtOwed(m, now, a, u)
  {
    var pool, sc := Accrue(m.pools[asset], now), ScaleOf(m, now);
    var s, d, c := AccrueSupplier(m, pool, user, asset), AccrueBorrower(m, pool, user, asset), m.(pools := m.pools[asset := pool]);
    AccruedIsCurrent(m, now, asset);
    AccrueSupplierMoves(m, sc, pool, user, asset, asset);
    AccrueBorrowerMoves(m, sc, pool, user, asset, asset);
    SameBooks(m, c, sc, user, asset, asset);
    SamePoolsKept(m, s, now);
    SamePoolsKept(m, d, now);
    assert PoolOk(m.pools[asset], now);
    AccrueKeepsPoolOk(m.pools[asset], now);
    OnePoolKept(m, c, now, asset, pool);
    Conclude(m, s, now, user, asset, 0, asset, 0);
    Conclude(m, d, now, user, asset, 0, asset, 0);
    Conclude(m, c, now, user, asset, 0, asset, 0);
    ViewsMoveExactly(m, s, now, user, asset, 0, asset, 0, a, u);
    ViewsMoveExactly(m, d, now, user, asset, 0, asset, 0, a, u);
    ViewsMoveExactly(m, c, now, user, asset, 0, asset, 0, a, u);
  }

  // ---------- values under a move ----------

  /** How a move changes the mover's values, in terms of the one record on each side. */
  lemma ValuesMove(m: Market, m': Market, sc: Scale, user: AccountId, get: AssetId, supplied: int, pay: AssetId, owed: int)
    requires BooksOk(m, sc) && Moved(m, m', sc, user, get, supplied, pay, owed)
    ensures SafeSupplyValue(m', sc, user) + MulInt(Weight(sc.safePrices, get), Owed(m.supplies, sc.supply, get, user))
            == SafeSupplyValue(m, sc, user) + MulInt(Weight(sc.safePrices, get), Owed(m'.supplies, sc.supply, get, user))
    ensures DebtValue(m', sc, user) + MulInt(Weight(sc.prices, pay), Owed(m.debts, sc.debt, pay, user))
            == DebtValue(m, sc, user) + MulInt(Weight(sc.prices, pay), Owed(m'.debts, sc.debt, pay, user))
  {
    ValueChange(m.supplies, m'.supplies, sc.supply, sc.safePrices, user, get);
    ValueChange(m.debts, m'.debts, sc.debt, sc.prices, user, pay);
  }

  lemma NoMoveKeepsValues(m: Market, m': Market, sc: Scale, user: AccountId, get: AssetId, pay: AssetId)
    requires BooksOk(m, sc) && Moved(m, m', sc, user, get, 0, pay, 0)
    ensures SafeSupplyValue(m', sc, user) == SafeSupplyValue(m, sc, user)
    ensures DebtValue(m', sc, user) == DebtValue(m, sc, user)
  {
    ValuesMove(m, m', sc, user, get, 0, pay, 0);
  }

  // ---------- health after the fact ----------

  ghost predicate Healthy(m: Market, now: nat, user: AccountId, slack: nat) {
    DebtValue(m, ScaleOf(m, now), user) <= SafeSupplyValue(m, ScaleOf(m, now), user) + slack
  }

  /** What the borrow check has established about the state before the call. */
  lemma BorrowChecked(m: Market, pool: Pool, sc: Scale, user: AccountId, asset: AssetId, amount: nat)
    requires BooksOk(m, sc) && Current(sc, asset, pool) && m.threshold == D
    requires BorrowPool(m, pool, sc, user, asset, amount).1 == Done
    ensures DebtValue(m, sc, user) + MulInt(Price(m.ledger, asset), amount) <= SafeSupplyValue(m, sc, user)
  {
    var m1 := AccrueBorrower(m, pool, user, asset);
    AccrueBorrowerMoves(m, sc, pool, user, asset, asset);
    NoMoveKeepsValues(m, m1, sc, user, asset, asset);
    MulOne(DebtValue(m, sc, user) + MulInt(Price(m.ledger, asset), amount));
  }

  /** After a successful borrow, the recomputed debt value is within one unit of the safe supply value. */
  lemma BorrowLeavesHealthy(m: Market, now: nat, user: AccountId, asset: AssetId, amount: nat)
    requires Inv(m, now) && Borrow(m, now, user, asset, amount).1 == Done
    ensures Healthy(Borrow(m, now, user, asset, amount).0, now, user, 1)
  {
    var (m', out) := Borrow(m, now, user, asset, amount);
    var sc, pool := ScaleOf(m, now), Accrue(m.pools[asset], now);
    BorrowEffect(m, now, user, asset, amount);
    AccruedIsCurrent(m, now, asset);
    AccruedIsWeighted(m, now, asset);
    BorrowChecked(m, pool, sc, user, asset, amount);
    BorrowedWithinOne(m, m', sc, user, asset, amount);
  }

  lemma BorrowedWithinOne(m: Market, m': Market, sc: Scale, user: AccountId, asset: AssetId, amount: nat)
    requires BooksOk(m, sc) && Moved(m, m', sc, user, asset, 0, asset, amount)
    requires DebtValue(m, sc, user) + MulInt(Weight(sc.prices, asset), amount) <= SafeSupplyValue(m, sc, user)
    ensures DebtValue(m', sc, user) <= SafeSupplyValue(m', sc, user) + 1
  {
    ValuesMove(m, m', sc, user, asset, 0, asset, amount);
    MulIntSum(Weight(sc.prices, asset), Owed(m.debts, sc.debt, asset, user), amount);
  }

  lemma ReleasedWithinOne(m: Market, m': Market, sc: Scale, user: AccountId, asset: AssetId, paid: nat)
    requires BooksOk(m, sc) && Moved(m, m', sc, user, asset, Taken(Done, paid), asset, 0)
    requires DebtValue(m, sc, user) + MulInt(Weight(sc.safePrices, asset), paid) <= SafeSupplyValue(m, sc, user)
    ensures DebtValue(m', sc, user) <= SafeSupplyValue(m', sc, user) + 1
  {
    ValuesMove(m, m', sc, user, asset, Taken(Done, paid), asset, 0);
    MulIntSum(Weight(sc.safePrices, asset), Owed(m'.supplies, sc.supply, asset, user), paid);
  }

  /** A user's safe supply value covers what releasing part of one supply takes from it, so the
      subtraction in `withdraw` is in range. */
  lemma ReleaseIsCovered(m: Market, sc: Scale, user: AccountId, asset: AssetId, paid: nat)
    requires BooksOk(m, sc) && paid <= Owed(m.supplies, sc.supply, asset, user)
    ensures MulInt(Weight(sc.safePrices, asset), paid) <= SafeSupplyValue(m, sc, user)
  {
    ValueSplit(m.supplies, sc.supply, sc.safePrices, user, asset);
    MulIntLe(Weight(sc.safePrices, asset), paid, Owed(m.supplies, sc.supply, asset, user));
  }

  /** Price and safe factor of the accrued pool are the weight `get_user_info` uses. */
  ghost predicate Weighted(m: Market, sc: Scale, asset: AssetId, pool: Pool) {
    && Weight(sc.safePrices, asset) == Mul(Price(m.ledger, asset), pool.safeFactor)
    && Weight(sc.prices, asset) == Price(m.ledger, asset)
  }

  /** A withdrawal that reaches its checks does not trap on the collateral subtraction; a successful
      one has kept the remaining safe value above the debt value. */
  lemma WithdrawChecked(m: Market, pool: Pool, sc: Scale, user: AccountId, asset: AssetId, amount: nat)
    requires BooksOk(m, sc) && Current(sc, asset, pool) && Weighted(m, sc, asset, pool)
    requires m.threshold == D && UserInfoDefined(m, user)
    ensures var paid := Min(amount, Owed(m.supplies, sc.supply, asset, user));
            var released := MulInt(Weight(sc.safePrices, asset), paid);
            var out := WithdrawPool(m, pool, sc, user, asset, amount).1;
            && released <= SafeSupplyValue(m, sc, user)
            && (out == Done ==> DebtValue(m, sc, user) + released <= SafeSupplyValue(m, sc, user))
            && (out == Panicked <==> (asset, user) in m.supplies.records
                                     && DebtValue(m, sc, user) + released <= SafeSupplyValue(m, sc, user)
                                     && pool.supply < pool.debt)
  {
    var m1 := AccrueSupplier(m, pool, user, asset);
    var paid := Min(amount, Owed(m.supplies, sc.supply, asset, user));
    AccrueSupplierMoves(m, sc, pool, user, asset, asset);
    NoMoveKeepsValues(m, m1, sc, user, asset, asset);
    ReleaseIsCovered(m, sc, user, asset, paid);
    MulOne(DebtValue(m, sc, user));
    if (asset, user) in m.supplies.records && paid <= pool.supply {
      PayOutMoves(m1, sc, pool, user, asset, paid);
    }
  }

  lemma AccruedIsWeighted(m: Market, now: nat, asset: AssetId)
    requires asset in m.pools
    ensures Weighted(m, ScaleOf(m, now), asset, Accrue(m.pools[asset], now))
  {
  }

  /** After a successful withdrawal, the same. */
  lemma WithdrawLeavesHealthy(m: Market, now: nat, user: AccountId, asset: AssetId, amount: nat)
    requires Inv(m, now) && Withdraw(m, now, user, asset, amount).1 == Done
    ensures Healthy(Withdraw(m, now, user, asset, amount).0, now, user, 1)
  {
    var (m', out) := Withdraw(m, now, user, asset, amount);
    var sc, pool := ScaleOf(m, now), Accrue(m.pools[asset], now);
    var paid := Min(amount, Owed(m.supplies, sc.supply, asset, user));
    WithdrawEffect(m, now, user, asset, amount);
    AccruedIsCurrent(m, now, asset);
    AccruedIsWeighted(m, now, asset);
    InfoDefined(m, now, user);
    WithdrawChecked(m, pool, sc, user, asset, amount);
    ReleasedWithinOne(m, m', sc, user, asset, paid);
  }

  // ---------- exactly when a call traps ----------

  /** In a reachable state a withdrawal traps exactly when it passes its health check while the
      interest since the last accrual overtakes the pool's unlent supply. */
  lemma WithdrawTrapsIff(m: Market, now: nat, user: AccountId, asset: AssetId, amount: nat)
    requires Inv(m, now)
    ensures Withdraw(m, now, user, asset, amount).1 == Panicked
            <==> && asset in m.pools
                 && (asset, user) in m.supplies.records
                 && DebtValue(m, ScaleOf(m, now), user)
                    + MulInt(Mul(Price(m.ledger, asset), m.pools[asset].safeFactor), Min(amount, SupplyOwed(m, now, asset, user)))
                    <= SafeSupplyValue(m, ScaleOf(m, now), user)
                 && Overtaken(m.pools[asset], now)
  {
    if asset in m.pools {
      DebtOvertakesIff(m.pools[asset], now);
      AccruedIsCurrent(m, now, asset);
      AccruedIsWeighted(m, now, asset);
      InfoDefined(m, now, user);
      WithdrawChecked(m, Accrue(m.pools[asset], now), ScaleOf(m, now), user, asset, amount);
    }
  }

  lemma BorrowPoolTrapsIff(m: Market, pool: Pool, sc: Scale, user: AccountId, asset: AssetId, amount: nat)
    requires BooksOk(m, sc) && Current(sc, asset, pool) && UserInfoDefined(m, user)
    ensures BorrowPool(m, pool, sc, user, asset, amount).1 == Panicked <==> pool.supply < pool.debt
  {
  }

  lemma BorrowTrapsIff(m: Market, now: nat, user: AccountId, asset: AssetId, amount: nat)
    requires Inv(m, now)
    ensures Borrow(m, now, user, asset, amount).1 == Panicked
            <==> asset in m.pools && Overtaken(m.pools[asset], now)
  {
    if asset in m.pools {
      DebtOvertakesIff(m.pools[asset], now);
      AccruedIsCurrent(m, now, asset);
      InfoDefined(m, now, user);
      BorrowPoolTrapsIff(m, Accrue(m.pools[asset], now), ScaleOf(m, now), user, asset, amount);
    }
  }

  lemma LiquidatePoolsTrapsIff(m: Market, payPool: Pool, getPool: Pool, sc: Scale, user: AccountId, target: AccountId, pay: AssetId, get: AssetId, amount: nat)
    requires BooksOk(m, sc) && Current(sc, pay, payPool) && Current(sc, get, getPool)
    requires m.threshold == D && UserInfoDefined(m, target)
    requires getPool.closeFactor <= D && getPool.discountFactor > 0
    ensures LiquidatePools(m, payPool, getPool, sc, user, target, pay, get, amount).1 == Panicked
            <==> && SafeSupplyValue(m, sc, target) < DebtValue(m, sc, target)
                 && (get, target) in m.supplies.records
                 && (Price(m.ledger, pay) == 0 || ((pay, target) in m.debts.records && Price(m.ledger, get) == 0))
  {
    var m1 := AccrueTarget(m, payPool, getPool, target, pay, get);
    AccrueTargetMoves(m, sc, payPool, getPool, target, pay, get);
    NoMoveKeepsValues(m, m1, sc, target, get, pay);
    MulOne(DebtValue(m, sc, target));
    LiquidateMoves(m, payPool, getPool, sc, user, target, pay, get, amount);
  }

  /** A liquidation traps exactly when it reaches its limits with a zero price: the target is short,
      has the supply, and the pay price is zero, or the debt exists and the get price is zero. */
  lemma LiquidateTrapsIff(m: Market, now: nat, user: AccountId, target: AccountId, pay: AssetId, get: AssetId, amount: nat)
    requires Inv(m, now)
    ensures Liquidate(m, now, user, target, pay, get, amount).1 == Panicked
            <==> && pay in m.pools && get in m.pools && m.pools[get].canBeCollateral
                 && SafeSupplyValue(m, ScaleOf(m, now), target) < DebtValue(m, ScaleOf(m, now), target)
                 && (get, target) in m.supplies.records
                 && (Price(m.ledger, pay) == 0 || ((pay, target) in m.debts.records && Price(m.ledger, get) == 0))
  {
    if pay in m.pools && get in m.pools && m.pools[get].canBeCollateral {
      AccruedIsCurrent(m, now, pay);
      AccruedIsCurrent(m, now, get);
      InfoDefined(m, now, target);
      assert PoolOk(m.pools[get], now);
      LiquidatePoolsTrapsIff(m, Accrue(m.pools[pay], now), Accrue(m.pools[get], now), ScaleOf(m, now), user, target, pay, get, amount);
    }
  }

  // ---------- what a failed liquidation keeps ----------

  /** From the transfers on: a failed one has still taken the payment exactly when the liquidator
      covered it and the collateral leg was empty or not covered by the pallet. */
  lemma SeizeKeepsPaymentIff(m: Market, payPool: Pool, getPool: Pool, user: AccountId, target: AccountId, pay: AssetId, get: AssetId, paid: nat)
    requires user.User? && Price(m.ledger, get) > 0 && getPool.discountFactor > 0
    ensures var (m', out) := Seize(m, payPool, getPool, user, target, pay, get, paid);
            var seized := SeizedAmount(m, getPool, pay, get, paid);
            var cash := Balance(m.ledger, get, LendingPallet) + (if get == pay then paid else 0);
            out == Failed(TransferFailed) && Balance(m'.ledger, pay, user) < Balance(m.ledger, pay, user)
            <==> 0 < paid <= Balance(m.ledger, pay, user) && !(0 < seized <= cash)
  {
  }

  lemma LiquidatePoolsKeepsPaymentIff(m: Market, payPool: Pool, getPool: Pool, sc: Scale, user: AccountId, target: AccountId, pay: AssetId, get: AssetId, amount: nat)
    requires BooksOk(m, sc) && Current(sc, pay, payPool) && Current(sc, get, getPool)
    requires user.User? && m.threshold == D && UserInfoDefined(m, target)
    ensures var (m', out) := LiquidatePools(m, payPool, getPool, sc, user, target, pay, get, amount);
            out == Failed(TransferFailed) && Balance(m'.ledger, pay, user) < Balance(m.ledger, pay, user)
            <==> && Seizable(m, getPool, target, pay, get)
                 && SafeSupplyValue(m, sc, target) < DebtValue(m, sc, target)
                 && var paid, seized := Payment(m, payPool, getPool, target, pay, get, amount), Seizure(m, payPool, getPool, target, pay, get, amount);
                    && 0 < paid <= Balance(m.ledger, pay, user)
                    && !(0 < seized <= Balance(m.ledger, get, LendingPallet) + (if get == pay then paid else 0))
  {
    var m1 := AccrueTarget(m, payPool, getPool, target, pay, get);
    AccrueTargetMoves(m, sc, payPool, getPool, target, pay, get);
    NoMoveKeepsValues(m, m1, sc, target, get, pay);
    MulOne(DebtValue(m, sc, target));
    LiquidateCheckIs(m1, getPool, sc, target, pay, get);
    if LiquidateCheck(m1, getPool, sc, target, pay, get) == Done {
      SeizeKeepsPaymentIff(m1, payPool, getPool, user, target, pay, get, Payment(m, payPool, getPool, target, pay, get, amount));
    }
  }

  /** A liquidation reports a failed transfer and has still taken the payment exactly when the target
      is short, the liquidator covers the payment, and the seizure floors to nothing or is more than
      the pallet holds. */
  lemma FailedSeizureKeepsPaymentIff(m: Market, now: nat, user: AccountId, target: AccountId, pay: AssetId, get: AssetId, amount: nat)
    requires Inv(m, now) && user.User?
    ensures var (m', out) := Liquidate(m, now, user, target, pay, get, amount);
            out == Failed(TransferFailed) && Balance(m'.ledger, pay, user) < Balance(m.ledger, pay, user)
            <==> && CanSeize(m, target, pay, get) && m.pools[get].canBeCollateral
                 && SafeSupplyValue(m, ScaleOf(m, now), target) < DebtValue(m, ScaleOf(m, now), target)
                 && var paid, seized := PaymentOf(m, now, target, pay, get, amount), SeizureOf(m, now, target, pay, get, amount);
                    && 0 < paid <= Balance(m.ledger, pay, user)
                    && !(0 < seized <= Balance(m.ledger, get, LendingPallet) + (if get == pay then paid else 0))
  {
    if pay in m.pools && get in m.pools && m.pools[get].canBeCollateral {
      AccruedIsCurrent(m, now, pay);
      AccruedIsCurrent(m, now, get);
      InfoDefined(m, now, target);
      LiquidatePoolsKeepsPaymentIff(m, Accrue(m.pools[pay], now), Accrue(m.pools[get], now), ScaleOf(m, now), user, target, pay, get, amount);
    }
  }

  // ---------- liquidation and the target's shortfall ----------

  /** Debt value minus safe supply value, as `get_user_info` computes them. */
  ghost function Shortfall(m: Market, sc: Scale, user: AccountId): int {
    DebtValue(m, sc, user) as int - SafeSupplyValue(m, sc, user) as int
  }

  /** The safe value of what is seized is at most the value of what is paid. */
  lemma SeizedIsWorthNoMore(getPrice: nat, payPrice: nat, safe: nat, discount: nat, paid: nat)
    requires getPrice > 0 && discount > 0 && safe <= discount
    ensures Mul(getPrice, safe) * GetAmount(getPrice, payPrice, discount, paid) <= payPrice * paid
  {
    var w, r := Mul(getPrice, safe), Div(payPrice, getPrice);
    var q, g := Div(r, discount), GetAmount(getPrice, payPrice, discount, paid);
    FloorBounds(getPrice * safe, D);
    FloorBounds(payPrice * D, getPrice);
    FloorBounds(r * D, discount);
    FloorBounds(q * paid, D);
    MulLe(safe, discount, getPrice);
    assert w * q <= payPrice * D by {
      MulLe(w * D, getPrice * discount, q);
      MulLe(q * discount, r * D, getPrice);
      Reorder(w, D, q);
      assert getPrice * discount * q == q * discount * getPrice by { Reorder(getPrice, discount, q); Reorder(q, discount, getPrice); }
      assert r * D * getPrice == r * getPrice * D by { Reorder(r, D, getPrice); }
      CancelLe(w * q, r * getPrice, D);
    }
    MulLe(g * D, q * paid, w);
    MulLe(w * q, payPrice * D, paid);
    assert g * D * w == w * g * D by { Reorder(g, D, w); }
    assert q * paid * w == w * q * paid by { Reorder(q, paid, w); }
    assert payPrice * D * paid == payPrice * paid * D by { Reorder(payPrice, D, paid); }
    CancelLe(w * g, payPrice * paid, D);
  }

  /** At one scale: taking `seized` from one supply and `paid` from one debt. */
  lemma SeizureKeepsShortfall(m: Market, m': Market, sc: Scale, getPool: Pool, target: AccountId, get: AssetId, seized: nat, pay: AssetId, paid: nat)
    requires BooksOk(m, sc)
    requires Moved(m, m', sc, target, get, Taken(Done, seized), pay, Taken(Done, paid))
    requires Weighted(m, sc, get, getPool) && Weight(sc.prices, pay) == Price(m.ledger, pay)
    requires Price(m.ledger, get) > 0 && getPool.safeFactor <= getPool.discountFactor && getPool.discountFactor > 0
    requires seized == SeizedAmount(m, getPool, pay, get, paid)
    ensures Shortfall(m', sc, target) <= Shortfall(m, sc, target) + 1
  {
    var w, p := Weight(sc.safePrices, get), Weight(sc.prices, pay);
    ValuesMove(m, m', sc, target, get, Taken(Done, seized), pay, Taken(Done, paid));
    MulIntSum(w, Owed(m'.supplies, sc.supply, get, target), seized);
    MulIntSum(p, Owed(m'.debts, sc.debt, pay, target), paid);
    SeizedIsWorthNoMore(Price(m.ledger, get), Price(m.ledger, pay), getPool.safeFactor, getPool.discountFactor, paid);
    FloorLe(w * seized, p * paid, D);
  }

  /** On every outcome a liquidation raises its target's shortfall by at most one unit, also when
      the paid and the seized asset are the same. */
  lemma LiquidationKeepsShortfall(m: Market, now: nat, user: AccountId, target: AccountId, pay: AssetId, get: AssetId, amount: nat)
    requires Inv(m, now)
    ensures var m' := Liquidate(m, now, user, target, pay, get, amount).0;
            Shortfall(m', ScaleOf(m', now), target) <= Shortfall(m, ScaleOf(m, now), target) + 1
  {
    hide Liquidate, Moved, BookOk;
    var (m', out) := Liquidate(m, now, user, target, pay, get, amount);
    var sc := ScaleOf(m, now);
    LiquidateEffect(m, now, user, target, pay, get, amount);
    if out == Done {
      assert PoolOk(m.pools[get], now);
      AccruedIsWeighted(m, now, get);
      AccruedIsWeighted(m, now, pay);
      SeizureKeepsShortfall(m, m', sc, Accrue(m.pools[get], now), target, get, SeizureOf(m, now, target, pay, get, amount),
                            pay, PaymentOf(m, now, target, pay, get, amount));
    } else {
      NoMoveKeepsValues(m, m', sc, target, get, pay);
    }
  }
}
