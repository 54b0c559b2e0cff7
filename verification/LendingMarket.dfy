// The lending pallet's state as a value, and each dispatchable as a function on it. Storage writes
// made before an error are part of the result, as in the pallet.

module LendingMarket {
  import opened Identifiers
  import opened FixedPoint
  import opened AssetLedger
  import opened InterestModel
  import opened UserBooks

  datatype Error =
    | TransferFailed
    | NotEnoughLiquidity
    | PoolNotExist
    | AssetNotCollateral
    | AboveLiquidationThreshold
    | BelowLiquidationThreshold
    | UserNoSupply
    | UserNoDebt

  /** Panicked: a checked subtraction or a division trapped; what was written so far is returned
      with it, and it is up to the executor to discard it. */
  datatype Outcome = Done | Failed(error: Error) | Panicked

  datatype Market = Market(
    ledger: Ledger,
    pools: map<AssetId, Pool>,
    supplies: Book,
    debts: Book,
    threshold: nat)

  function Min(x: nat, y: nat): nat {
    if x < y then x else y
  }

  // ---------- views at a block ----------

  /** What user records are read against: effective indices of all pools, and prices. */
  datatype Scale = Scale(
    supply: Limits,
    debt: Limits,
    prices: map<AssetId, nat>,
    safePrices: map<AssetId, nat>)

  function SupplyLimits(pools: map<AssetId, Pool>, now: nat): Limits {
    map a | a in pools :: EffectiveSupplyIndex(pools[a], now)
  }

  function DebtLimits(pools: map<AssetId, Pool>, now: nat): Limits {
    map a | a in pools :: EffectiveDebtIndex(pools[a], now)
  }

  function Prices(pools: map<AssetId, Pool>, ledger: Ledger): map<AssetId, nat> {
    map a | a in pools :: Price(ledger, a)
  }

  function SafePrices(pools: map<AssetId, Pool>, ledger: Ledger): map<AssetId, nat> {
    map a | a in pools :: Mul(Price(ledger, a), pools[a].safeFactor)
  }

  /** What one round of `get_user_info` adds. An asset without a pool owes nothing. */
  lemma TermOf(pools: map<AssetId, Pool>, ledger: Ledger, b: Book, limits: Limits, asset: AssetId, user: AccountId)
    requires asset in limits <==> asset in pools
    ensures Term(b, limits, Prices(pools, ledger), asset, user) == MulInt(Price(ledger, asset), Owed(b, limits, asset, user))
    ensures asset in pools ==>
              Term(b, limits, SafePrices(pools, ledger), asset, user)
              == MulInt(Mul(Price(ledger, asset), pools[asset].safeFactor), Owed(b, limits, asset, user))
  {
  }

  /** One round of a loop over a user's list. */
  lemma RoundOf(pools: map<AssetId, Pool>, ledger: Ledger, b: Book, limits: Limits, user: AccountId, list: seq<AssetId>, i: nat)
    requires i < |list| && (list[i] in limits <==> list[i] in pools)
    ensures ListValue(b, limits, Prices(pools, ledger), user, list[..i + 1])
            == ListValue(b, limits, Prices(pools, ledger), user, list[..i]) + MulInt(Price(ledger, list[i]), Owed(b, limits, list[i], user))
    ensures list[i] in pools ==>
              ListValue(b, limits, SafePrices(pools, ledger), user, list[..i + 1])
              == ListValue(b, limits, SafePrices(pools, ledger), user, list[..i])
                 + MulInt(Mul(Price(ledger, list[i]), pools[list[i]].safeFactor), Owed(b, limits, list[i], user))
  {
    TermOf(pools, ledger, b, limits, list[i], user);
    ListValueStep(b, limits, Prices(pools, ledger), user, list, i);
    ListValueStep(b, limits, SafePrices(pools, ledger), user, list, i);
  }

  function ScaleOf(m: Market, now: nat): Scale {
    Scale(SupplyLimits(m.pools, now), DebtLimits(m.pools, now), Prices(m.pools, m.ledger), SafePrices(m.pools, m.ledger))
  }

  /** `get_user_supply_with_interest`. */
  function SupplyOwed(m: Market, now: nat, asset: AssetId, user: AccountId): nat {
    Owed(m.supplies, ScaleOf(m, now).supply, asset, user)
  }

  /** `get_user_debt_with_interest`. */
  function DebtOwed(m: Market, now: nat, asset: AssetId, user: AccountId): nat {
    Owed(m.debts, ScaleOf(m, now).debt, asset, user)
  }

  // The three results of `get_user_info`, at a scale.

  function SupplyValue(m: Market, sc: Scale, user: AccountId): nat {
    Value(m.supplies, sc.supply, sc.prices, user)
  }

  function SafeSupplyValue(m: Market, sc: Scale, user: AccountId): nat {
    Value(m.supplies, sc.supply, sc.safePrices, user)
  }

  function DebtValue(m: Market, sc: Scale, user: AccountId): nat {
    Value(m.debts, sc.debt, sc.prices, user)
  }

  /** `get_user_info` unwraps the pool of every supplied asset. */
  predicate UserInfoDefined(m: Market, user: AccountId) {
    forall a | a in List(m.supplies, user) :: a in m.pools
  }

  // ---------- dispatchables ----------

  function Supply(m: Market, now: nat, user: AccountId, asset: AssetId, amount: nat): (Market, Outcome) {
    if asset !in m.pools then (m, Failed(PoolNotExist))
    else TakeIn(m, Accrue(m.pools[asset], now), user, asset, amount)
  }

  function TakeIn(m: Market, pool: Pool, user: AccountId, asset: AssetId, amount: nat): (Market, Outcome) {
    var (ledger, ok) := Transfer(m.ledger, user, asset, LendingPallet, amount);
    if !ok then (m, Failed(TransferFailed)) else
    (m.(ledger := ledger,
        supplies := Enlist(Credit(m.supplies, pool.totalSupplyIndex, asset, user, amount), asset, user),
        pools := m.pools[asset := pool.(supply := pool.supply + amount)]),
     Done)
  }

  function AccrueSupplier(m: Market, pool: Pool, user: AccountId, asset: AssetId): Market {
    m.(supplies := AccrueUser(m.supplies, pool.totalSupplyIndex, asset, user))
  }

  function AccrueBorrower(m: Market, pool: Pool, user: AccountId, asset: AssetId): Market {
    m.(debts := AccrueUser(m.debts, pool.totalDebtIndex, asset, user))
  }

  function Withdraw(m: Market, now: nat, user: AccountId, asset: AssetId, amount: nat): (Market, Outcome) {
    if asset !in m.pools then (m, Failed(PoolNotExist))
    else WithdrawPool(m, Accrue(m.pools[asset], now), ScaleOf(m, now), user, asset, amount)
  }

  /** `pool` is accrued but not stored; the scale, read from the stored pools, does not change
      until the commit at the end. */
  function WithdrawPool(m: Market, pool: Pool, sc: Scale, user: AccountId, asset: AssetId, amount: nat): (Market, Outcome) {
    var m1 := AccrueSupplier(m, pool, user, asset);
    if (asset, user) !in m1.supplies.records then (m1, Failed(UserNoSupply)) else
    var paid := Min(amount, m1.supplies.records[(asset, user)].amount);
    var check := WithdrawCheck(m1, pool, sc, user, asset, paid);
    if check != Done then (m1, check) else PayOut(m1, pool, user, asset, paid)
  }

  /** Collateral first, then cash; the records are caught up but the stored pool is not. */
  function WithdrawCheck(m: Market, pool: Pool, sc: Scale, user: AccountId, asset: AssetId, paid: nat): Outcome {
    var released := MulInt(Mul(Price(m.ledger, asset), pool.safeFactor), paid);
    if !UserInfoDefined(m, user) then Panicked
    else if SafeSupplyValue(m, sc, user) < released then Panicked
    else if SafeSupplyValue(m, sc, user) - released < MulInt(m.threshold, DebtValue(m, sc, user))
    then Failed(BelowLiquidationThreshold)
    else if pool.supply < pool.debt then Panicked
    else if pool.supply - pool.debt < paid then Failed(NotEnoughLiquidity)
    else Done
  }

  function PayOut(m: Market, pool: Pool, user: AccountId, asset: AssetId, paid: nat): (Market, Outcome) {
    var (ledger, ok) := Transfer(m.ledger, LendingPallet, asset, user, paid);
    if !ok then (m, Failed(TransferFailed)) else
    var m1 := m.(ledger := ledger);
    if !DebitFits(m1.supplies, pool.totalSupplyIndex, asset, user, paid) then (m1, Panicked) else
    var m2 := m1.(supplies := Debit(m1.supplies, pool.totalSupplyIndex, asset, user, paid));
    if pool.supply < paid then (m2, Panicked) else
    (m2.(pools := m2.pools[asset := pool.(supply := pool.supply - paid)]), Done)
  }

  function Borrow(m: Market, now: nat, user: AccountId, asset: AssetId, amount: nat): (Market, Outcome) {
    if asset !in m.pools then (m, Failed(PoolNotExist))
    else BorrowPool(m, Accrue(m.pools[asset], now), ScaleOf(m, now), user, asset, amount)
  }

  function BorrowPool(m: Market, pool: Pool, sc: Scale, user: AccountId, asset: AssetId, amount: nat): (Market, Outcome) {
    if pool.supply < pool.debt then (m, Panicked) else
    if pool.supply - pool.debt < amount then (m, Failed(NotEnoughLiquidity)) else
    var m1 := AccrueBorrower(m, pool, user, asset);
    var check := BorrowCheck(m1, sc, user, asset, amount);
    if check != Done then (m1, check) else Lend(m1, pool, user, asset, amount)
  }

  function BorrowCheck(m: Market, sc: Scale, user: AccountId, asset: AssetId, amount: nat): Outcome {
    if !UserInfoDefined(m, user) then Panicked
    else if SafeSupplyValue(m, sc, user)
            < MulInt(m.threshold, DebtValue(m, sc, user) + MulInt(Price(m.ledger, asset), amount))
    then Failed(BelowLiquidationThreshold)
    else Done
  }

  function Lend(m: Market, pool: Pool, user: AccountId, asset: AssetId, amount: nat): (Market, Outcome) {
    var (ledger, ok) := Transfer(m.ledger, LendingPallet, asset, user, amount);
    if !ok then (m, Failed(TransferFailed)) else
    (m.(ledger := ledger,
        debts := Enlist(Credit(m.debts, pool.totalDebtIndex, asset, user, amount), asset, user),
        pools := m.pools[asset := pool.(debt := pool.debt + amount)]),
     Done)
  }

  function Repay(m: Market, now: nat, user: AccountId, asset: AssetId, amount: nat): (Market, Outcome) {
    if asset !in m.pools then (m, Failed(PoolNotExist))
    else RepayPool(m, Accrue(m.pools[asset], now), user, asset, amount)
  }

  function RepayPool(m: Market, pool: Pool, user: AccountId, asset: AssetId, amount: nat): (Market, Outcome) {
    var m1 := AccrueBorrower(m, pool, user, asset);
    if (asset, user) !in m1.debts.records then (m1, Failed(UserNoDebt)) else
    TakeBack(m1, pool, user, asset, Min(amount, m1.debts.records[(asset, user)].amount))
  }

  function TakeBack(m: Market, pool: Pool, user: AccountId, asset: AssetId, paid: nat): (Market, Outcome) {
    var (ledger, ok) := Transfer(m.ledger, user, asset, LendingPallet, paid);
    if !ok then (m, Failed(TransferFailed)) else
    var m1 := m.(ledger := ledger);
    if !DebitFits(m1.debts, pool.totalDebtIndex, asset, user, paid) then (m1, Panicked) else
    var m2 := m1.(debts := Debit(m1.debts, pool.totalDebtIndex, asset, user, paid));
    if pool.debt < paid then (m2, Panicked) else
    (m2.(pools := m2.pools[asset := pool.(debt := pool.debt - paid)]), Done)
  }

  // The amounts of a liquidation, with every division floored where the pallet floors it.

  function PayLimit(getPrice: nat, payPrice: nat, discount: nat, getLimit: nat): nat
    requires payPrice > 0
  {
    MulInt(Mul(Div(getPrice, payPrice), discount), getLimit)
  }

  function GetAmount(getPrice: nat, payPrice: nat, discount: nat, paid: nat): nat
    requires getPrice > 0 && discount > 0
  {
    MulInt(Div(Div(payPrice, getPrice), discount), paid)
  }

  /** Catch up both records of the target, against the accrued but uncommitted pools. */
  function AccrueTarget(m: Market, payPool: Pool, getPool: Pool, target: AccountId, pay: AssetId, get: AssetId): Market {
    AccrueBorrower(AccrueSupplier(m, getPool, target, get), payPool, target, pay)
  }

  function Liquidate(m: Market, now: nat, user: AccountId, target: AccountId, pay: AssetId, get: AssetId, amount: nat): (Market, Outcome) {
    if get !in m.pools then (m, Failed(PoolNotExist)) else
    if !m.pools[get].canBeCollateral then (m, Failed(AssetNotCollateral)) else
    if pay !in m.pools then (m, Failed(PoolNotExist))
    else LiquidatePools(m, Accrue(m.pools[pay], now), Accrue(m.pools[get], now), ScaleOf(m, now), user, target, pay, get, amount)
  }

  function LiquidatePools(m: Market, payPool: Pool, getPool: Pool, sc: Scale, user: AccountId, target: AccountId, pay: AssetId, get: AssetId, amount: nat): (Market, Outcome) {
    var m1 := AccrueTarget(m, payPool, getPool, target, pay, get);
    var check := LiquidateCheck(m1, getPool, sc, target, pay, get);
    if check != Done then (m1, check) else
    var paid := PaidAmount(m1, getPool, target, pay, get, amount);
    Seize(m1, payPool, getPool, user, target, pay, get, paid)
  }

  /** Threshold, then the records and prices in the order the pallet needs them. */
  function LiquidateCheck(m: Market, getPool: Pool, sc: Scale, target: AccountId, pay: AssetId, get: AssetId): Outcome {
    if !UserInfoDefined(m, target) then Panicked
    else if MulInt(m.threshold, DebtValue(m, sc, target)) <= SafeSupplyValue(m, sc, target)
    then Failed(AboveLiquidationThreshold)
    else if (get, target) !in m.supplies.records then Failed(UserNoSupply)
    else if Price(m.ledger, pay) == 0 then Panicked
    else if (pay, target) !in m.debts.records then Failed(UserNoSupply)
    else if Price(m.ledger, get) == 0 || getPool.discountFactor == 0 then Panicked
    else Done
  }

  /** The payment: what is offered, capped by the pay limit and by the target's debt. */
  function PaidAmount(m: Market, getPool: Pool, target: AccountId, pay: AssetId, get: AssetId, amount: nat): nat
    requires Price(m.ledger, pay) > 0
    requires (get, target) in m.supplies.records && (pay, target) in m.debts.records
  {
    var getLimit := MulInt(getPool.closeFactor, m.supplies.records[(get, target)].amount);
    var payLimit := PayLimit(Price(m.ledger, get), Price(m.ledger, pay), getPool.discountFactor, getLimit);
    Min(Min(amount, payLimit), m.debts.records[(pay, target)].amount)
  }

  function SeizedAmount(m: Market, getPool: Pool, pay: AssetId, get: AssetId, paid: nat): nat
    requires Price(m.ledger, get) > 0 && getPool.discountFactor > 0
  {
    GetAmount(Price(m.ledger, get), Price(m.ledger, pay), getPool.discountFactor, paid)
  }

  /** From the transfers on. A failed second transfer leaves the first one in place. */
  function Seize(m: Market, payPool: Pool, getPool: Pool, user: AccountId, target: AccountId, pay: AssetId, get: AssetId, paid: nat): (Market, Outcome)
    requires Price(m.ledger, get) > 0 && getPool.discountFactor > 0
  {
    var seized := SeizedAmount(m, getPool, pay, get, paid);
    var (ledger1, ok1) := Transfer(m.ledger, user, pay, LendingPallet, paid);
    if !ok1 then (m, Failed(TransferFailed)) else
    var m1 := m.(ledger := ledger1);
    var (ledger2, ok2) := Transfer(m1.ledger, LendingPallet, get, user, seized);
    if !ok2 then (m1, Failed(TransferFailed)) else
    Settle(m1.(ledger := ledger2), payPool, getPool, target, pay, get, paid, seized)
  }

  function Settle(m: Market, payPool: Pool, getPool: Pool, target: AccountId, pay: AssetId, get: AssetId, paid: nat, seized: nat): (Market, Outcome) {
    if !DebitFits(m.supplies, getPool.totalSupplyIndex, get, target, seized) then (m, Panicked) else
    var m1 := m.(supplies := Debit(m.supplies, getPool.totalSupplyIndex, get, target, seized));
    if !DebitFits(m1.debts, payPool.totalDebtIndex, pay, target, paid) then (m1, Panicked) else
    var m2 := m1.(debts := Debit(m1.debts, payPool.totalDebtIndex, pay, target, paid));
    (m2.(pools := m2.pools[get := getPool][pay := payPool]), Done)
  }

  function InitPool(m: Market, now: nat, id: AssetId, canBeCollateral: bool): Market {
    m.(pools := m.pools[id := NewPool(id, canBeCollateral, now)])
  }

  /** The genesis build loop over the configured pool ids. */
  function InitPools(m: Market, now: nat, ids: seq<AssetId>): Market {
    if ids == [] then m
    else InitPool(InitPools(m, now, ids[..|ids| - 1]), now, ids[|ids| - 1], true)
  }

  function Opening(ledger: Ledger): Market {
    Market(ledger, map[], Book(map[], map[]), Book(map[], map[]), D)
  }

  // ---------- the reachable-state invariant ----------

  ghost predicate PoolOk(p: Pool, now: nat) {
    && p.lastUpdated <= now
    && D <= p.totalSupplyIndex && D <= p.totalDebtIndex
    && (p.supply == 0 ==> p.debt == 0)
    && p.closeFactor <= D
    && 0 < p.initialInterestRate
    && p.safeFactor <= p.discountFactor && 0 < p.discountFactor
  }

  ghost predicate PoolsOk(m: Market, now: nat) {
    && m.threshold == D
    && forall a | a in m.pools :: PoolOk(m.pools[a], now)
  }

  ghost predicate BooksOk(m: Market, sc: Scale) {
    BookOk(m.supplies, sc.supply) && BookOk(m.debts, sc.debt)
  }

  ghost predicate Inv(m: Market, now: nat) {
    PoolsOk(m, now) && BooksOk(m, ScaleOf(m, now))
  }
}
