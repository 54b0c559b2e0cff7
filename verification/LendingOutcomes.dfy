// What every lending call answers, and who holds what afterwards, read off the state before the call:
// the outcome for every guard, each balance of each account, and the pools that are written.

module LendingOutcomes {
  import opened Identifiers
  import opened FixedPoint
  import opened Sums
  import opened AssetLedger
  import opened InterestModel
  import opened UserBooks
  import opened LendingMarket
  import opened LendingSteps
  import opened LendingInvariant
  import opened LendingHealth
  import opened LendingLosses

  // ---------- the values of get_user_info ----------

  function SafePriceOf(m: Market, a: AssetId): nat {
    if a in m.pools then Mul(Price(m.ledger, a), m.pools[a].safeFactor) else 0
  }

  lemma PricedTerms(m: Market, b: Book, limits: Limits, user: AccountId, assets: set<AssetId>)
    requires limits.Keys == m.pools.Keys
    ensures Terms(b, limits, Prices(m.pools, m.ledger), user, assets)
            == map a | a in assets :: MulInt(Price(m.ledger, a), Owed(b, limits, a, user))
    ensures Terms(b, limits, SafePrices(m.pools, m.ledger), user, assets)
            == map a | a in assets :: MulInt(SafePriceOf(m, a), Owed(b, limits, a, user))
  {
    hide Term, MulInt, Mul, Prices, SafePrices, Owed, Price;
    forall a
      ensures Term(b, limits, Prices(m.pools, m.ledger), a, user) == MulInt(Price(m.ledger, a), Owed(b, limits, a, user))
      ensures Term(b, limits, SafePrices(m.pools, m.ledger), a, user) == MulInt(SafePriceOf(m, a), Owed(b, limits, a, user))
    {
      PricedTerm(m, b, limits, user, a);
    }
  }

  lemma PricedTerm(m: Market, b: Book, limits: Limits, user: AccountId, a: AssetId)
    requires limits.Keys == m.pools.Keys
    ensures Term(b, limits, Prices(m.pools, m.ledger), a, user) == MulInt(Price(m.ledger, a), Owed(b, limits, a, user))
    ensures Term(b, limits, SafePrices(m.pools, m.ledger), a, user) == MulInt(SafePriceOf(m, a), Owed(b, limits, a, user))
  {
    assert a in limits <==> a in m.pools;
    TermOf(m.pools, m.ledger, b, limits, a, user);
  }

  lemma BookValue(m: Market, b: Book, limits: Limits, user: AccountId)
    requires BookOk(b, limits) && limits.Keys == m.pools.Keys
    ensures Value(b, limits, Prices(m.pools, m.ledger), user)
            == Sum(map a | a in AssetsOf(b, user) :: MulInt(Price(m.ledger, a), Owed(b, limits, a, user)))
    ensures Value(b, limits, SafePrices(m.pools, m.ledger), user)
            == Sum(map a | a in AssetsOf(b, user) :: MulInt(SafePriceOf(m, a), Owed(b, limits, a, user)))
  {
    hide Term, MulInt, Mul, Prices, SafePrices, Owed, Price, SafePriceOf, BookOk, Sum, Value, AssetsOf;
    PricedTerms(m, b, limits, user, AssetsOf(b, user));
    ValueIsSum(b, limits, Prices(m.pools, m.ledger), user);
    ValueIsSum(b, limits, SafePrices(m.pools, m.ledger), user);
  }

  lemma LimitsOfPools(pools: map<AssetId, Pool>, now: nat)
    ensures SupplyLimits(pools, now).Keys == pools.Keys && DebtLimits(pools, now).Keys == pools.Keys
  {
  }

  /** The first two results of `get_user_info` are sums over the user's supplies, each once: of what is
      owed at its price, and at its price and safe factor. */
  lemma SupplyInfoIsSums(m: Market, now: nat, user: AccountId)
    requires Inv(m, now)
    ensures SupplyValue(m, ScaleOf(m, now), user)
            == Sum(map a | a in AssetsOf(m.supplies, user) :: MulInt(Price(m.ledger, a), SupplyOwed(m, now, a, user)))
    ensures SafeSupplyValue(m, ScaleOf(m, now), user)
            == Sum(map a | a in AssetsOf(m.supplies, user) :: MulInt(SafePriceOf(m, a), SupplyOwed(m, now, a, user)))
  {
    hide MulInt, Mul, Prices, SafePrices, Owed, Price, SafePriceOf, BookOk, Sum, Value, AssetsOf, SupplyLimits, PoolsOk;
    var limits := SupplyLimits(m.pools, now);
    LimitsOfPools(m.pools, now);
    BookValue(m, m.supplies, limits, user);
    assert (map a | a in AssetsOf(m.supplies, user) :: MulInt(Price(m.ledger, a), SupplyOwed(m, now, a, user)))
           == map a | a in AssetsOf(m.supplies, user) :: MulInt(Price(m.ledger, a), Owed(m.supplies, limits, a, user));
    assert (map a | a in AssetsOf(m.supplies, user) :: MulInt(SafePriceOf(m, a), SupplyOwed(m, now, a, user)))
           == map a | a in AssetsOf(m.supplies, user) :: MulInt(SafePriceOf(m, a), Owed(m.supplies, limits, a, user));
  }

  /** The third is the sum over the user's debts at their prices. */
  lemma DebtInfoIsSum(m: Market, now: nat, user: AccountId)
    requires Inv(m, now)
    ensures DebtValue(m, ScaleOf(m, now), user)
            == Sum(map a | a in AssetsOf(m.debts, user) :: MulInt(Price(m.ledger, a), DebtOwed(m, now, a, user)))
  {
    hide MulInt, Mul, Prices, SafePrices, Owed, Price, SafePriceOf, BookOk, Sum, Value, AssetsOf, DebtLimits, PoolsOk;
    var limits := DebtLimits(m.pools, now);
    LimitsOfPools(m.pools, now);
    BookValue(m, m.debts, limits, user);
    assert (map a | a in AssetsOf(m.debts, user) :: MulInt(Price(m.ledger, a), DebtOwed(m, now, a, user)))
           == map a | a in AssetsOf(m.debts, user) :: MulInt(Price(m.ledger, a), Owed(m.debts, limits, a, user));
  }

  // ---------- catching a user up, and the transfers ----------

  /** A transfer goes through exactly for a positive amount within the payer's holding. */
  predicate Covers(held: nat, n: nat) {
    0 < n <= held
  }

  /** Every balance after a call that moves `n` of one asset if it is done, and nothing otherwise. */
  ghost predicate Transferred(m: Market, m': Market, out: Outcome, asset: AssetId, from: AccountId, to: AccountId, n: nat, i: AssetId, who: AccountId) {
    && m'.ledger == m.ledger.(balances := m'.ledger.balances)
    && Balance(m'.ledger, i, who) == Balance(m.ledger, i, who) + (if out == Done then Shift(i, who, asset, from, to, n) else 0)
  }

  /** Only the books may differ between `m` and `m1`, and not in what the checks of `user` look at. */
  ghost predicate SameForChecks(m: Market, m1: Market, sc: Scale, user: AccountId) {
    && BooksOk(m1, sc)
    && m1.ledger == m.ledger && m1.pools == m.pools && m1.threshold == m.threshold
    && (UserInfoDefined(m1, user) <==> UserInfoDefined(m, user))
    && DebtValue(m1, sc, user) == DebtValue(m, sc, user)
    && SafeSupplyValue(m1, sc, user) == SafeSupplyValue(m, sc, user)
  }

  lemma SupplierCaughtUp(m: Market, pool: Pool, sc: Scale, user: AccountId, asset: AssetId)
    requires BooksOk(m, sc) && Current(sc, asset, pool)
    ensures var m1, owed := AccrueSupplier(m, pool, user, asset), Owed(m.supplies, sc.supply, asset, user);
            && SameForChecks(m, m1, sc, user)
            && ((asset, user) in m1.supplies.records <==> (asset, user) in m.supplies.records)
            && ((asset, user) in m1.supplies.records ==> m1.supplies.records[(asset, user)].amount == owed)
            && Owed(m1.supplies, sc.supply, asset, user) == owed
  {
    AccrueSupplierMoves(m, sc, pool, user, asset, asset);
    hide BookOk, Owed, SafeSupplyValue, DebtValue;
    NoMoveKeepsValues(m, AccrueSupplier(m, pool, user, asset), sc, user, asset, asset);
  }

  lemma BorrowerCaughtUp(m: Market, pool: Pool, sc: Scale, user: AccountId, asset: AssetId)
    requires BooksOk(m, sc) && Current(sc, asset, pool)
    ensures var m1, owed := AccrueBorrower(m, pool, user, asset), Owed(m.debts, sc.debt, asset, user);
            && SameForChecks(m, m1, sc, user)
            && ((asset, user) in m1.debts.records <==> (asset, user) in m.debts.records)
            && ((asset, user) in m1.debts.records ==> m1.debts.records[(asset, user)].amount == owed)
            && Owed(m1.debts, sc.debt, asset, user) == owed
  {
    AccrueBorrowerMoves(m, sc, pool, user, asset, asset);
    hide BookOk, Owed, SafeSupplyValue, DebtValue;
    NoMoveKeepsValues(m, AccrueBorrower(m, pool, user, asset), sc, user, asset, asset);
  }

  function IfCovered(held: nat, n: nat): Outcome {
    if Covers(held, n) then Done else Failed(TransferFailed)
  }

  lemma PayOutPays(m: Market, sc: Scale, pool: Pool, user: AccountId, asset: AssetId, paid: nat, i: AssetId, who: AccountId)
    requires BooksOk(m, sc) && Current(sc, asset, pool) && paid <= pool.supply
    requires (asset, user) in m.supplies.records && paid <= Owed(m.supplies, sc.supply, asset, user)
    ensures var (m', out) := PayOut(m, pool, user, asset, paid);
            && out == IfCovered(Balance(m.ledger, asset, LendingPallet), paid)
            && Transferred(m, m', out, asset, LendingPallet, user, paid, i, who)
  {
    PayOutMoves(m, sc, pool, user, asset, paid);
    hide BooksOk, Current, Moved, Owed, Balance, Debit, DebitFits, Transfer;
    TransferMoves(m.ledger, LendingPallet, asset, user, paid, i, who);
  }

  lemma TakeBackPays(m: Market, sc: Scale, pool: Pool, user: AccountId, asset: AssetId, paid: nat, i: AssetId, who: AccountId)
    requires BooksOk(m, sc) && Current(sc, asset, pool)
    requires (asset, user) in m.debts.records && paid <= Owed(m.debts, sc.debt, asset, user)
    ensures var (m', out) := TakeBack(m, pool, user, asset, paid);
            && (out == Panicked <==> Covers(Balance(m.ledger, asset, user), paid) && pool.debt < paid)
            && (out != Panicked ==> out == IfCovered(Balance(m.ledger, asset, user), paid)
                                    && Transferred(m, m', out, asset, user, LendingPallet, paid, i, who))
  {
    TakeBackMoves(m, sc, pool, user, asset, paid);
    hide BooksOk, Current, Moved, Owed, Balance, Debit, DebitFits, Transfer;
    TransferMoves(m.ledger, user, asset, LendingPallet, paid, i, who);
  }

  // ---------- one call on its accrued pool ----------

  /** The outcome of a withdrawal of `paid` from a pool with `unlent` units: there is a record, what
      remains of the safe supply value covers the debt value, the pool has the units not lent out, and the
      pallet holds them. The first of these that fails names the error. */
  predicate WithdrawalAnswer(out: Outcome, recorded: bool, safe: bool, unlent: int, cash: nat, paid: nat) {
    && (out == Done <==> recorded && safe && paid <= unlent && Covers(cash, paid))
    && (out == Failed(UserNoSupply) <==> !recorded)
    && (out == Failed(BelowLiquidationThreshold) <==> recorded && !safe)
    && (out == Failed(NotEnoughLiquidity) <==> recorded && safe && 0 <= unlent < paid)
    && (out == Failed(TransferFailed) <==> recorded && safe && paid <= unlent && !Covers(cash, paid))
    && (out == Panicked <==> recorded && safe && unlent < 0)
  }

  lemma WithdrawPoolIs(m: Market, pool: Pool, sc: Scale, user: AccountId, asset: AssetId, amount: nat, i: AssetId, who: AccountId)
    requires BooksOk(m, sc) && Current(sc, asset, pool) && Weighted(m, sc, asset, pool)
    requires m.threshold == D && UserInfoDefined(m, user)
    ensures var (m', out) := WithdrawPool(m, pool, sc, user, asset, amount);
            var paid := Min(amount, Owed(m.supplies, sc.supply, asset, user));
            && WithdrawalAnswer(out, (asset, user) in m.supplies.records,
                                DebtValue(m, sc, user) + MulInt(Weight(sc.safePrices, asset), paid) <= SafeSupplyValue(m, sc, user),
                                pool.supply - pool.debt, Balance(m.ledger, asset, LendingPallet), paid)
            && Transferred(m, m', out, asset, LendingPallet, user, paid, i, who)
  {
    var m1 := AccrueSupplier(m, pool, user, asset);
    var paid := Min(amount, Owed(m.supplies, sc.supply, asset, user));
    hide WithdrawCheck, PayOut, AccrueSupplier, BooksOk, Current, Owed, DebtValue, SafeSupplyValue, UserInfoDefined, MulInt, Mul, Price, Weight, Balance, Covers;
    SupplierCaughtUp(m, pool, sc, user, asset);
    WithdrawChecks(m1, pool, sc, user, asset, paid);
    if (asset, user) in m1.supplies.records && pool.debt + paid <= pool.supply {
      PayOutPays(m1, sc, pool, user, asset, paid, i, who);
    }
  }

  lemma WithdrawChecks(m: Market, pool: Pool, sc: Scale, user: AccountId, asset: AssetId, paid: nat)
    requires BooksOk(m, sc) && m.threshold == D && UserInfoDefined(m, user)
    requires paid <= Owed(m.supplies, sc.supply, asset, user) && Weighted(m, sc, asset, pool)
    ensures var safe := DebtValue(m, sc, user) + MulInt(Weight(sc.safePrices, asset), paid) <= SafeSupplyValue(m, sc, user);
            WithdrawCheck(m, pool, sc, user, asset, paid)
            == if !safe then Failed(BelowLiquidationThreshold)
               else if pool.supply < pool.debt then Panicked
               else if pool.supply - pool.debt < paid then Failed(NotEnoughLiquidity)
               else Done
  {
    ReleaseIsCovered(m, sc, user, asset, paid);
    MulOne(DebtValue(m, sc, user));
  }

  /** The outcome of a borrow: the pool has the amount not lent out, the debt value with it is within the
      safe supply value, and the pallet holds it. */
  predicate BorrowAnswer(out: Outcome, unlent: int, safe: bool, cash: nat, amount: nat) {
    && (out == Done <==> amount <= unlent && safe && Covers(cash, amount))
    && (out == Failed(NotEnoughLiquidity) <==> 0 <= unlent < amount)
    && (out == Failed(BelowLiquidationThreshold) <==> amount <= unlent && !safe)
    && (out == Failed(TransferFailed) <==> amount <= unlent && safe && !Covers(cash, amount))
    && (out == Panicked <==> unlent < 0)
  }

  lemma BorrowPoolIs(m: Market, pool: Pool, sc: Scale, user: AccountId, asset: AssetId, amount: nat)
    requires BooksOk(m, sc) && Current(sc, asset, pool)
    requires m.threshold == D && UserInfoDefined(m, user)
    ensures BorrowAnswer(BorrowPool(m, pool, sc, user, asset, amount).1, pool.supply - pool.debt,
                         DebtValue(m, sc, user) + MulInt(Price(m.ledger, asset), amount) <= SafeSupplyValue(m, sc, user),
                         Balance(m.ledger, asset, LendingPallet), amount)
  {
    var m1 := AccrueBorrower(m, pool, user, asset);
    hide BorrowCheck, AccrueBorrower, BooksOk, Current, Owed, DebtValue, SafeSupplyValue, UserInfoDefined, MulInt, Price, Balance, Transfer, Credit, Enlist;
    BorrowerCaughtUp(m, pool, sc, user, asset);
    BorrowChecks(m1, sc, user, asset, amount);
    TransferMoves(m1.ledger, LendingPallet, asset, user, amount, asset, user);
  }

  lemma BorrowChecks(m: Market, sc: Scale, user: AccountId, asset: AssetId, amount: nat)
    requires m.threshold == D && UserInfoDefined(m, user)
    ensures BorrowCheck(m, sc, user, asset, amount)
            == if DebtValue(m, sc, user) + MulInt(Price(m.ledger, asset), amount) <= SafeSupplyValue(m, sc, user)
               then Done else Failed(BelowLiquidationThreshold)
  {
    MulOne(DebtValue(m, sc, user) + MulInt(Price(m.ledger, asset), amount));
  }

  /** The outcome of a repayment: there is a record, the payer holds the payment, and the pool records
      that much debt. */
  predicate RepaymentAnswer(out: Outcome, recorded: bool, funds: nat, debt: nat, paid: nat) {
    && (out == Done <==> recorded && Covers(funds, paid) && paid <= debt)
    && (out == Failed(UserNoDebt) <==> !recorded)
    && (out == Failed(TransferFailed) <==> recorded && !Covers(funds, paid))
    && (out == Panicked <==> recorded && Covers(funds, paid) && debt < paid)
  }

  lemma RepayPoolIs(m: Market, pool: Pool, sc: Scale, user: AccountId, asset: AssetId, amount: nat, i: AssetId, who: AccountId)
    requires BooksOk(m, sc) && Current(sc, asset, pool)
    ensures var (m', out) := RepayPool(m, pool, user, asset, amount);
            var paid := Min(amount, Owed(m.debts, sc.debt, asset, user));
            && RepaymentAnswer(out, (asset, user) in m.debts.records, Balance(m.ledger, asset, user), pool.debt, paid)
            && (out != Panicked ==> Transferred(m, m', out, asset, user, LendingPallet, paid, i, who))
  {
    var m1 := AccrueBorrower(m, pool, user, asset);
    var paid := Min(amount, Owed(m.debts, sc.debt, asset, user));
    hide TakeBack, AccrueBorrower, BooksOk, Current, Owed, DebtValue, SafeSupplyValue, UserInfoDefined, Balance, Covers;
    BorrowerCaughtUp(m, pool, sc, user, asset);
    if (asset, user) in m1.debts.records {
      TakeBackPays(m1, sc, pool, user, asset, paid, i, who);
    }
  }

  // ---------- balances and pools after a call ----------

  /** A done supply moves the amount from the caller to the pallet and adds it to the accrued pool. */
  lemma SupplySettles(m: Market, now: nat, user: AccountId, asset: AssetId, amount: nat, i: AssetId, who: AccountId)
    requires Inv(m, now)
    ensures var (m', out) := Supply(m, now, user, asset, amount);
            && Transferred(m, m', out, asset, user, LendingPallet, amount, i, who)
            && (asset in m.pools ==> Commits(m.pools, m'.pools, out == Done, asset, Accrue(m.pools[asset], now), Added(out, amount), 0))
  {
    hide Accrue, Inv;
    TransferMoves(m.ledger, user, asset, LendingPallet, amount, i, who);
    if asset in m.pools {
      SupplyCommits(m, Accrue(m.pools[asset], now), user, asset, amount);
    }
  }

  /** A done withdrawal moves the amount, capped by what is owed, from the pallet to the caller, and
      takes it from the accrued pool. */
  lemma WithdrawSettles(m: Market, now: nat, user: AccountId, asset: AssetId, amount: nat, i: AssetId, who: AccountId)
    requires Inv(m, now)
    ensures var (m', out) := Withdraw(m, now, user, asset, amount);
            var paid := Min(amount, SupplyOwed(m, now, asset, user));
            && Transferred(m, m', out, asset, LendingPallet, user, paid, i, who)
            && (asset in m.pools && out != Panicked ==>
                Commits(m.pools, m'.pools, out == Done, asset, Accrue(m.pools[asset], now), Taken(out, paid), 0))
  {
    if asset in m.pools {
      AccruedIsCurrent(m, now, asset);
      var pool, sc := Accrue(m.pools[asset], now), ScaleOf(m, now);
      AccruedIsWeighted(m, now, asset);
      InfoDefined(m, now, user);
      hide Accrue, ScaleOf, BookOk, Current, Weighted, WithdrawalAnswer;
      WithdrawPoolIs(m, pool, sc, user, asset, amount, i, who);
      if WithdrawPool(m, pool, sc, user, asset, amount).1 != Panicked {
        WithdrawCommits(m, pool, sc, user, asset, amount);
      }
    }
  }

  /** A done borrow moves the amount from the pallet to the caller and adds it to the accrued pool's debt. */
  lemma BorrowSettles(m: Market, now: nat, user: AccountId, asset: AssetId, amount: nat, i: AssetId, who: AccountId)
    requires Inv(m, now)
    ensures var (m', out) := Borrow(m, now, user, asset, amount);
            && Transferred(m, m', out, asset, LendingPallet, user, amount, i, who)
            && (asset in m.pools ==> Commits(m.pools, m'.pools, out == Done, asset, Accrue(m.pools[asset], now), 0, Added(out, amount)))
  {
    TransferMoves(m.ledger, LendingPallet, asset, user, amount, i, who);
    hide Accrue, Inv, ScaleOf, BorrowCheck;
    if asset in m.pools {
      BorrowCommits(m, Accrue(m.pools[asset], now), ScaleOf(m, now), user, asset, amount);
    }
  }

  /** A done repayment moves the amount, capped by what is owed, from the caller to the pallet, and takes
      it from the accrued pool's debt. */
  lemma RepaySettles(m: Market, now: nat, user: AccountId, asset: AssetId, amount: nat, i: AssetId, who: AccountId)
    requires Inv(m, now) && Repay(m, now, user, asset, amount).1 != Panicked
    ensures var (m', out) := Repay(m, now, user, asset, amount);
            var paid := Min(amount, DebtOwed(m, now, asset, user));
            && Transferred(m, m', out, asset, user, LendingPallet, paid, i, who)
            && (asset in m.pools ==>
                Commits(m.pools, m'.pools, out == Done, asset, Accrue(m.pools[asset], now), 0, Taken(out, paid)))
  {
    if asset in m.pools {
      AccruedIsCurrent(m, now, asset);
      var pool, sc := Accrue(m.pools[asset], now), ScaleOf(m, now);
      hide Accrue, ScaleOf, BookOk, Current;
      RepayPoolIs(m, pool, sc, user, asset, amount, i, who);
      RepayCommits(m, pool, sc, user, asset, amount);
    }
  }

  // ---------- the outcome of each guard ----------

  lemma SupplyAnswers(m: Market, now: nat, user: AccountId, asset: AssetId, amount: nat)
    requires Inv(m, now)
    ensures var out := Supply(m, now, user, asset, amount).1;
            && (out == Done <==> asset in m.pools && Covers(Balance(m.ledger, asset, user), amount))
            && (out == Failed(PoolNotExist) <==> asset !in m.pools)
            && (out == Failed(TransferFailed) <==> asset in m.pools && !Covers(Balance(m.ledger, asset, user), amount))
  {
    hide Accrue, Inv;
    TransferMoves(m.ledger, user, asset, LendingPallet, amount, asset, user);
  }

  /** Every guard of a withdrawal is decided by the state before it: catching the user up first changes
      none of them. */
  lemma WithdrawAnswers(m: Market, now: nat, user: AccountId, asset: AssetId, amount: nat)
    requires Inv(m, now)
    ensures var out, sc := Withdraw(m, now, user, asset, amount).1, ScaleOf(m, now);
            && (out == Failed(PoolNotExist) <==> asset !in m.pools)
            && (asset in m.pools ==>
                var pool, paid := Accrue(m.pools[asset], now), Min(amount, SupplyOwed(m, now, asset, user));
                WithdrawalAnswer(out, (asset, user) in m.supplies.records,
                                 DebtValue(m, sc, user) + MulInt(SafePriceOf(m, asset), paid) <= SafeSupplyValue(m, sc, user),
                                 pool.supply - pool.debt, Balance(m.ledger, asset, LendingPallet), paid))
  {
    if asset in m.pools {
      AccruedIsCurrent(m, now, asset);
      AccruedIsWeighted(m, now, asset);
      InfoDefined(m, now, user);
      hide BookOk, Current, Owed, Value;
      WithdrawPoolIs(m, Accrue(m.pools[asset], now), ScaleOf(m, now), user, asset, amount, asset, user);
    }
  }

  /** Both values as they are before the call, existing debts counted once. */
  lemma BorrowAnswers(m: Market, now: nat, user: AccountId, asset: AssetId, amount: nat)
    requires Inv(m, now)
    ensures var out, sc := Borrow(m, now, user, asset, amount).1, ScaleOf(m, now);
            && (out == Failed(PoolNotExist) <==> asset !in m.pools)
            && (asset in m.pools ==>
                var pool := Accrue(m.pools[asset], now);
                BorrowAnswer(out, pool.supply - pool.debt,
                             DebtValue(m, sc, user) + MulInt(Price(m.ledger, asset), amount) <= SafeSupplyValue(m, sc, user),
                             Balance(m.ledger, asset, LendingPallet), amount))
  {
    if asset in m.pools {
      AccruedIsCurrent(m, now, asset);
      InfoDefined(m, now, user);
      BorrowPoolIs(m, Accrue(m.pools[asset], now), ScaleOf(m, now), user, asset, amount);
    }
  }

  lemma RepayAnswers(m: Market, now: nat, user: AccountId, asset: AssetId, amount: nat)
    requires Inv(m, now)
    ensures var out := Repay(m, now, user, asset, amount).1;
            && (out == Failed(PoolNotExist) <==> asset !in m.pools)
            && (asset in m.pools ==>
                RepaymentAnswer(out, (asset, user) in m.debts.records, Balance(m.ledger, asset, user),
                                Accrue(m.pools[asset], now).debt, Min(amount, DebtOwed(m, now, asset, user))))
  {
    if asset in m.pools {
      AccruedIsCurrent(m, now, asset);
      RepayPoolIs(m, Accrue(m.pools[asset], now), ScaleOf(m, now), user, asset, amount, asset, user);
    }
  }

  // ---------- liquidation ----------

  /** The seizure is the payment at the discounted price ratio, rounded down: never more than that, and
      short of it by less than 1 + paid * (D + discount) / (discount * D). */
  lemma SeizureIsPriced(getPrice: nat, payPrice: nat, discount: nat, paid: nat)
    requires getPrice > 0 && discount > 0
    ensures var g := GetAmount(getPrice, payPrice, discount, paid);
            && discount * getPrice * g <= D * paid * payPrice
            && D * paid * (payPrice * D) < discount * getPrice * ((g + 1) * D) + getPrice * paid * (D + discount)
  {
    var r := Div(payPrice, getPrice);
    var q, g := Div(r, discount), GetAmount(getPrice, payPrice, discount, paid);
    FloorBounds(payPrice * D, getPrice);
    FloorBounds(r * D, discount);
    FloorBounds(q * paid, D);
    ThreeFloorsAtMost(payPrice, getPrice, D, discount, paid, D, r, q, g);
    ThreeFloorsLose(payPrice, getPrice, D, discount, paid, D, r, q, g);
  }

  /** The pay limit is the get limit at the same ratio the other way round, rounded down. */
  lemma PayLimitIsPriced(getPrice: nat, payPrice: nat, discount: nat, limit: nat)
    requires payPrice > 0
    ensures var n := PayLimit(getPrice, payPrice, discount, limit);
            && D * payPrice * n <= discount * limit * getPrice
            && discount * limit * (getPrice * D) < D * payPrice * ((n + 1) * D) + payPrice * limit * (discount + D)
  {
    var r := Div(getPrice, payPrice);
    var q, n := Mul(r, discount), PayLimit(getPrice, payPrice, discount, limit);
    FloorBounds(getPrice * D, payPrice);
    FloorBounds(r * discount, D);
    FloorBounds(q * limit, D);
    ThreeFloorsAtMost(getPrice, payPrice, discount, D, limit, D, r, q, n);
    ThreeFloorsLose(getPrice, payPrice, discount, D, limit, D, r, q, n);
  }

  /** What moves from the transfers on, on every outcome. */
  lemma SeizePays(m: Market, sc: Scale, payPool: Pool, getPool: Pool, user: AccountId, target: AccountId, pay: AssetId, get: AssetId, paid: nat, i: AssetId, who: AccountId)
    requires BooksOk(m, sc) && Current(sc, get, getPool) && Current(sc, pay, payPool)
    requires user.User? && Price(m.ledger, get) > 0 && getPool.discountFactor > 0
    requires (get, target) in m.supplies.records && (pay, target) in m.debts.records
    requires paid <= Owed(m.debts, sc.debt, pay, target)
    requires SeizedAmount(m, getPool, pay, get, paid) <= Owed(m.supplies, sc.supply, get, target)
    ensures var (m', out) := Seize(m, payPool, getPool, user, target, pay, get, paid);
            var seized := SeizedAmount(m, getPool, pay, get, paid);
            var covered := Covers(Balance(m.ledger, pay, user), paid);
            var backed := Covers(Balance(m.ledger, get, LendingPallet) + (if get == pay then paid else 0), seized);
            && out == (if covered && backed then Done else Failed(TransferFailed))
            && m'.ledger == m.ledger.(balances := m'.ledger.balances)
            && Balance(m'.ledger, i, who) == Balance(m.ledger, i, who)
                 + (if covered then Shift(i, who, pay, user, LendingPallet, paid) else 0)
                 + (if out == Done then Shift(i, who, get, LendingPallet, user, seized) else 0)
  {
    var seized := SeizedAmount(m, getPool, pay, get, paid);
    var l1 := Transfer(m.ledger, user, pay, LendingPallet, paid).0;
    var m2 := m.(ledger := Transfer(l1, LendingPallet, get, user, seized).0);
    TransferMoves(m.ledger, user, pay, LendingPallet, paid, i, who);
    TransferMoves(m.ledger, user, pay, LendingPallet, paid, get, LendingPallet);
    TransferMoves(l1, LendingPallet, get, user, seized, i, who);
    hide Transfer, Balance, Owed, BookOk, SameElsewhere, Current, GetAmount;
    SettleMoves(m2, sc, payPool, getPool, target, pay, get, paid, seized);
    SettleKeepsLedger(m2, payPool, getPool, target, pay, get, paid, seized);
  }

  lemma SettleKeepsLedger(m: Market, payPool: Pool, getPool: Pool, target: AccountId, pay: AssetId, get: AssetId, paid: nat, seized: nat)
    ensures Settle(m, payPool, getPool, target, pay, get, paid, seized).0.ledger == m.ledger
  {
  }

  /** The outcome of a liquidation between existing pools whose collateral may be seized: the target is
      short, has the supply and the debt, both prices are there, the liquidator covers the payment, and
      the pallet then backs the seizure. */
  predicate LiquidationAnswer(out: Outcome, short: bool, supplied: bool, indebted: bool, payPrice: nat, getPrice: nat, settles: bool) {
    var priced := supplied && indebted && payPrice > 0 && getPrice > 0;
    && (out == Done <==> short && priced && settles)
    && (out == Failed(AboveLiquidationThreshold) <==> !short)
    && (out == Failed(UserNoSupply) <==> short && (!supplied || (payPrice > 0 && !indebted)))
    && (out == Failed(TransferFailed) <==> short && priced && !settles)
    && (out == Panicked <==> short && supplied && (payPrice == 0 || (indebted && getPrice == 0)))
  }

  /** The liquidator covers the payment, and the pallet, with the payment if it is the same asset, the
      seizure. */
  predicate Settles(m: Market, user: AccountId, pay: AssetId, get: AssetId, paid: nat, seized: nat) {
    && Covers(Balance(m.ledger, pay, user), paid)
    && Covers(Balance(m.ledger, get, LendingPallet) + (if get == pay then paid else 0), seized)
  }

  lemma TargetCaughtUp(m: Market, payPool: Pool, getPool: Pool, sc: Scale, target: AccountId, pay: AssetId, get: AssetId)
    requires BooksOk(m, sc) && Current(sc, pay, payPool) && Current(sc, get, getPool)
    ensures var m1 := AccrueTarget(m, payPool, getPool, target, pay, get);
            && SameForChecks(m, m1, sc, target)
            && ((get, target) in m1.supplies.records <==> (get, target) in m.supplies.records)
            && ((pay, target) in m1.debts.records <==> (pay, target) in m.debts.records)
            && Owed(m1.supplies, sc.supply, get, target) == Owed(m.supplies, sc.supply, get, target)
            && Owed(m1.debts, sc.debt, pay, target) == Owed(m.debts, sc.debt, pay, target)
  {
    AccrueTargetMoves(m, sc, payPool, getPool, target, pay, get);
    hide BookOk, Owed, SafeSupplyValue, DebtValue;
    NoMoveKeepsValues(m, AccrueTarget(m, payPool, getPool, target, pay, get), sc, target, get, pay);
  }

  lemma LiquidateChecks(m: Market, getPool: Pool, sc: Scale, target: AccountId, pay: AssetId, get: AssetId)
    requires m.threshold == D && UserInfoDefined(m, target) && getPool.discountFactor > 0
    ensures LiquidateCheck(m, getPool, sc, target, pay, get)
            == if DebtValue(m, sc, target) <= SafeSupplyValue(m, sc, target) then Failed(AboveLiquidationThreshold)
               else if (get, target) !in m.supplies.records then Failed(UserNoSupply)
               else if Price(m.ledger, pay) == 0 then Panicked
               else if (pay, target) !in m.debts.records then Failed(UserNoSupply)
               else if Price(m.ledger, get) == 0 then Panicked
               else Done
  {
    MulOne(DebtValue(m, sc, target));
  }

  lemma LiquidatePoolsIs(m: Market, payPool: Pool, getPool: Pool, sc: Scale, user: AccountId, target: AccountId, pay: AssetId, get: AssetId, amount: nat, i: AssetId, who: AccountId)
    requires BooksOk(m, sc) && Current(sc, pay, payPool) && Current(sc, get, getPool)
    requires user.User? && m.threshold == D && UserInfoDefined(m, target)
    requires getPool.closeFactor <= D && getPool.discountFactor > 0
    ensures var (m', out) := LiquidatePools(m, payPool, getPool, sc, user, target, pay, get, amount);
            var seizable := Seizable(m, getPool, target, pay, get);
            && m'.ledger == m.ledger.(balances := m'.ledger.balances)
            && LiquidationAnswer(out, SafeSupplyValue(m, sc, target) < DebtValue(m, sc, target),
                                 (get, target) in m.supplies.records, (pay, target) in m.debts.records,
                                 Price(m.ledger, pay), Price(m.ledger, get),
                                 seizable && Settles(m, user, pay, get, Payment(m, payPool, getPool, target, pay, get, amount),
                                                     Seizure(m, payPool, getPool, target, pay, get, amount)))
            && Balance(m'.ledger, i, who) == Balance(m.ledger, i, who)
                 + (if seizable && (out == Done || (out == Failed(TransferFailed)
                                                    && Covers(Balance(m.ledger, pay, user), Payment(m, payPool, getPool, target, pay, get, amount))))
                    then Shift(i, who, pay, user, LendingPallet, Payment(m, payPool, getPool, target, pay, get, amount)) else 0)
                 + (if seizable && out == Done
                    then Shift(i, who, get, LendingPallet, user, Seizure(m, payPool, getPool, target, pay, get, amount)) else 0)
  {
    hide LiquidateCheck, Seize, AccrueTarget, BooksOk, Current, Owed, DebtValue, SafeSupplyValue, UserInfoDefined, Balance, Price, PaidAmount, GetAmount, Covers;
    var m1 := AccrueTarget(m, payPool, getPool, target, pay, get);
    TargetCaughtUp(m, payPool, getPool, sc, target, pay, get);
    LiquidateChecks(m1, getPool, sc, target, pay, get);
    if LiquidateCheck(m1, getPool, sc, target, pay, get) == Done {
      LiquidationLimits(m, payPool, getPool, sc, target, pay, get, amount);
      SeizePays(m1, sc, payPool, getPool, user, target, pay, get, Payment(m, payPool, getPool, target, pay, get, amount), i, who);
    }
  }

  /** Every guard of a liquidation, in the pallet's order, decided by the state before it. */
  lemma LiquidateAnswers(m: Market, now: nat, user: AccountId, target: AccountId, pay: AssetId, get: AssetId, amount: nat)
    requires Inv(m, now) && user.User?
    ensures var out, sc := Liquidate(m, now, user, target, pay, get, amount).1, ScaleOf(m, now);
            && (out == Failed(AssetNotCollateral) <==> get in m.pools && !m.pools[get].canBeCollateral)
            && (out == Failed(PoolNotExist) <==> get !in m.pools || (m.pools[get].canBeCollateral && pay !in m.pools))
            && (pay in m.pools && get in m.pools && m.pools[get].canBeCollateral ==>
                LiquidationAnswer(out, SafeSupplyValue(m, sc, target) < DebtValue(m, sc, target),
                                  (get, target) in m.supplies.records, (pay, target) in m.debts.records,
                                  Price(m.ledger, pay), Price(m.ledger, get),
                                  CanSeize(m, target, pay, get)
                                  && Settles(m, user, pay, get, PaymentOf(m, now, target, pay, get, amount), SeizureOf(m, now, target, pay, get, amount))))
  {
    if pay in m.pools && get in m.pools && m.pools[get].canBeCollateral {
      AccruedIsCurrent(m, now, pay);
      AccruedIsCurrent(m, now, get);
      InfoDefined(m, now, target);
      assert PoolOk(m.pools[get], now);
      hide Current, BookOk, Value, Settles, Payment, Seizure, Balance, Price;
      LiquidatePoolsIs(m, Accrue(m.pools[pay], now), Accrue(m.pools[get], now), ScaleOf(m, now), user, target, pay, get, amount, pay, user);
    }
  }

  /** A done liquidation moves the payment from the liquidator to the pallet and the seizure from the
      pallet to the liquidator, and commits both accrued pools. Any other leaves the pools, and moves
      nothing but a covered payment whose seizure then failed. */
  lemma LiquidateSettles(m: Market, now: nat, user: AccountId, target: AccountId, pay: AssetId, get: AssetId, amount: nat, i: AssetId, who: AccountId)
    requires Inv(m, now) && user.User?
    ensures var (m', out) := Liquidate(m, now, user, target, pay, get, amount);
            && m'.ledger == m.ledger.(balances := m'.ledger.balances)
            && (out == Done ==> CanSeize(m, target, pay, get))
            && m'.pools == (if out == Done then m.pools[get := Accrue(m.pools[get], now)][pay := Accrue(m.pools[pay], now)] else m.pools)
            && Balance(m'.ledger, i, who) == Balance(m.ledger, i, who)
                 + (if CanSeize(m, target, pay, get)
                       && (out == Done || (out == Failed(TransferFailed)
                                           && Covers(Balance(m.ledger, pay, user), PaymentOf(m, now, target, pay, get, amount))))
                    then Shift(i, who, pay, user, LendingPallet, PaymentOf(m, now, target, pay, get, amount)) else 0)
                 + (if out == Done then Shift(i, who, get, LendingPallet, user, SeizureOf(m, now, target, pay, get, amount)) else 0)
  {
    if pay in m.pools && get in m.pools && m.pools[get].canBeCollateral {
      var payPool, getPool, sc := Accrue(m.pools[pay], now), Accrue(m.pools[get], now), ScaleOf(m, now);
      AccruedIsCurrent(m, now, pay);
      AccruedIsCurrent(m, now, get);
      assert PoolOk(m.pools[get], now);
      InfoDefined(m, now, target);
      LiquidateTotals(m, payPool, getPool, sc, user, target, pay, get, amount);
      hide Current, BookOk, Payment, Seizure, Accrue, ScaleOf, Balance, Settles, Covers, Price;
      LiquidatePoolsIs(m, payPool, getPool, sc, user, target, pay, get, amount, i, who);
    }
  }

}
