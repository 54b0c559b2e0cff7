// Worked inputs. First the accrual figures the repository's own test expects; then, where the pallets
// fall short of what one would expect, a run from genesis that shows it. The exact conditions are
// stated where the calls are: `DebtOvertakesIff` in InterestModel, the trap conditions and
// `FailedSeizureKeepsPaymentIff` in LendingHealth, `InitPoolForgetsNothingIff` in LendingDrift,
// `RepaymentsAreCovered` in ChainRuns, and for swaps and additions the iffs of SwapSafety.

module KnownLimits {
  import opened Identifiers
  import opened FixedPoint
  import opened AssetLedger
  import opened InterestModel
  import opened UserBooks
  import opened LendingMarket
  import opened LendingInvariant
  import opened LendingHealth
  import Swap = SwapExchange
  import opened SwapSafety
  import opened ChainState
  import opened ChainRuns

  // ---------- the figures of the accrual test ----------

  /** Two supplies of 2 * 10^17 with 10^17 borrowed in between. */
  const TestPool: Pool := NewPool(0, true, 1).(supply := 200_000_000_000_000_000, debt := 100_000_000_000_000_000)
  const TestPoolLater: Pool :=
    TestPool.(supply := 400_000_023_100_000_000, debt := 100_000_023_100_000_000, lastUpdated := 11,
              totalSupplyIndex := 1_000_000_115_500_000_000, totalDebtIndex := 1_000_000_231_000_000_000)

  /** The first ten blocks: the multipliers the test names. */
  lemma FirstTenBlocks()
    ensures SupplyMultiplier(TestPool, 10) == 1_000_000_115_500_000_000
    ensures DebtMultiplier(TestPool, 10) == 1_000_000_231_000_000_000
    ensures var q := Accrue(TestPool, 11);
            q.(supply := q.supply + 200_000_000_000_000_000) == TestPoolLater
  {
    assert Utilization(TestPool) == 500_000_000_000_000_000;
    assert DebtRate(TestPool) == 23_100_000_000;
    assert SupplyRate(TestPool) == 11_550_000_000;
    MultiplierIs(TestPool, 10);
  }

  /** The next ten, after the second supply and before the second borrow of 10^17. */
  lemma NextTenBlocks()
    ensures Accrue(TestPoolLater, 21).supply == 400_000_036_575_004_778
    ensures Accrue(TestPoolLater, 21).debt + 100_000_000_000_000_000 == 200_000_036_575_004_779
  {
    assert Utilization(TestPoolLater) == 250_000_043_312_497_498;
    assert DebtRate(TestPoolLater) == 13_475_001_667;
    assert SupplyRate(TestPoolLater) == 3_368_751_000;
    MultiplierIs(TestPoolLater, 10);
  }

  // ---------- a reachable market: one supplier, one borrower ----------

  const Bea := User(1)
  const Tom := User(2)
  const Nobody := Book(map[], map[])

  /** Two assets and their pools; the second asset is one unit of collateral. */
  function TwoAssets(total: nat, balances: map<(AssetId, AccountId), nat>, price: nat, supplied: nat, borrowed: nat, collateral: nat,
                     supplies: Book, debts: Book): World {
    World(0,
          Market(Ledger(2, map[0 := total, 1 := 1], balances, 0, map[0 := D, 1 := price * D]),
                 map[0 := NewPool(0, true, 0).(supply := supplied, debt := borrowed), 1 := NewPool(1, true, 0).(supply := collateral)],
                 supplies, debts, D),
          Swap.NoShares)
  }

  function LentGenesis(supplied: nat, kept: nat, price: nat): World
    requires supplied + kept <= U128_MAX
  {
    GenesisWorld(Bea, [GenesisAsset(Bea, supplied + kept, 1), GenesisAsset(Tom, 1, price)], [0, 1], 0)
  }

  function Opened(supplied: nat, kept: nat, price: nat): World {
    TwoAssets(supplied + kept, map[(0, Bea) := supplied + kept, (1, Tom) := 1], price, 0, 0, 0, Nobody, Nobody)
  }

  function Supplied(supplied: nat, kept: nat, price: nat): World {
    TwoAssets(supplied + kept, map[(0, Bea) := kept, (0, LendingPallet) := supplied, (1, Tom) := 1], price, supplied, 0, 0,
              Book(map[(0, Bea) := Record(supplied, D)], map[Bea := [0]]), Nobody)
  }

  function Secured(supplied: nat, kept: nat, price: nat): World {
    TwoAssets(supplied + kept, map[(0, Bea) := kept, (0, LendingPallet) := supplied, (1, Tom) := 0, (1, LendingPallet) := 1], price, supplied, 0, 1,
              Book(map[(0, Bea) := Record(supplied, D), (1, Tom) := Record(1, D)], map[Bea := [0], Tom := [1]]), Nobody)
  }

  /** Bea has supplied asset 0, and Tom borrowed of it against his one unit of asset 1. */
  function Lent(supplied: nat, kept: nat, borrowed: nat, price: nat): World
    requires borrowed <= supplied
  {
    TwoAssets(supplied + kept,
              map[(0, Bea) := kept, (0, Tom) := borrowed, (0, LendingPallet) := supplied - borrowed, (1, Tom) := 0, (1, LendingPallet) := 1],
              price, supplied, borrowed, 1,
              Book(map[(0, Bea) := Record(supplied, D), (1, Tom) := Record(1, D)], map[Bea := [0], Tom := [1]]),
              Book(map[(0, Tom) := Record(borrowed, D)], map[Tom := [0]]))
  }

  function LentCalls(supplied: nat, borrowed: nat): seq<Call> {
    [SupplyCall(Bea, 0, supplied), SupplyCall(Tom, 1, 1), BorrowCall(Tom, 0, borrowed)]
  }

  lemma GenesisOfTwo(owner: AccountId, a0: GenesisAsset, a1: GenesisAsset)
    ensures Genesis(Empty, owner, [a0, a1]) == GenesisStep(GenesisStep(Empty, owner, a0), owner, a1)
  {
    assert [a0, a1][..1] == [a0] && [a0][..0] == [];
    assert Genesis(Empty, owner, [a0]) == GenesisStep(Empty, owner, a0);
  }

  lemma PoolsOfTwo(l: Ledger)
    ensures InitPools(Opening(l), 0, [0, 1]) == Opening(l).(pools := map[0 := NewPool(0, true, 0), 1 := NewPool(1, true, 0)])
  {
    assert [0, 1][..1] == [0] && [0][..0] == [];
    assert InitPools(Opening(l), 0, [0]) == InitPool(Opening(l), 0, 0, true);
    assert InitPools(Opening(l), 0, [0, 1]) == InitPool(InitPool(Opening(l), 0, 0, true), 0, 1, true);
  }

  lemma OpenedIsGenesis(supplied: nat, kept: nat, price: nat)
    requires supplied + kept <= U128_MAX
    ensures LentGenesis(supplied, kept, price) == Opened(supplied, kept, price)
  {
    var a0, a1 := GenesisAsset(Bea, supplied + kept, 1), GenesisAsset(Tom, 1, price);
    var l1 := Ledger(1, map[0 := supplied + kept], map[(0, Bea) := supplied + kept], 0, map[0 := D]);
    var l2 := Opened(supplied, kept, price).market.ledger;
    assert GenesisStep(Empty, Bea, a0) == l1;
    assert GenesisStep(l1, Bea, a1) == l2;
    GenesisOfTwo(Bea, a0, a1);
    PoolsOfTwo(l2);
  }

  /** The first record of a user in a book. */
  lemma FirstCredit(b: Book, index: Index, asset: AssetId, user: AccountId, amount: nat)
    requires (asset, user) !in b.records && user !in b.lists && 0 < amount
    ensures Enlist(Credit(b, index, asset, user, amount), asset, user)
            == Book(b.records[(asset, user) := Record(amount, index)], b.lists[user := [asset]])
  {
    assert [] + [asset] == [asset];
  }

  /** A covered payment between two accounts. */
  lemma PaidOver(l: Ledger, from: AccountId, id: AssetId, to: AccountId, amount: nat)
    requires 0 < amount <= Balance(l, id, from) && from != to
    ensures Transfer(l, from, id, to, amount)
            == (l.(balances := l.balances[(id, from) := Balance(l, id, from) - amount][(id, to) := Balance(l, id, to) + amount]), true)
  {
  }

  lemma BeaSupplies(supplied: nat, kept: nat, price: nat)
    requires 0 < supplied
    ensures Apply(Opened(supplied, kept, price), SupplyCall(Bea, 0, supplied)) == Supplied(supplied, kept, price)
  {
    hide Credit, Enlist, Transfer, FromRational;
    var m, w' := Opened(supplied, kept, price).market, Supplied(supplied, kept, price).market;
    FirstCredit(m.supplies, D, 0, Bea, supplied);
    PaidOver(m.ledger, Bea, 0, LendingPallet, supplied);
    var m' := TakeIn(m, m.pools[0], Bea, 0, supplied).0;
    assert m'.ledger.balances == w'.ledger.balances;
    assert m'.pools == w'.pools;
  }

  lemma TomSupplies(supplied: nat, kept: nat, price: nat)
    ensures Apply(Supplied(supplied, kept, price), SupplyCall(Tom, 1, 1)) == Secured(supplied, kept, price)
  {
    hide Credit, Enlist, Transfer, FromRational;
    var m, w' := Supplied(supplied, kept, price).market, Secured(supplied, kept, price).market;
    FirstCredit(m.supplies, D, 1, Tom, 1);
    PaidOver(m.ledger, Tom, 1, LendingPallet, 1);
    var m' := TakeIn(m, m.pools[1], Tom, 1, 1).0;
    assert m'.ledger.balances == w'.ledger.balances;
    assert m'.pools == w'.pools;
  }

  /** The value of a list of one asset. */
  lemma ListOfOne(b: Book, limits: Limits, weights: map<AssetId, nat>, user: AccountId, asset: AssetId)
    ensures ListValue(b, limits, weights, user, [asset]) == Term(b, limits, weights, asset, user)
  {
    assert [asset][..0] == [];
  }

  /** An up-to-date record owes its amount. */
  lemma OwedAtIndex(b: Book, limits: Limits, asset: AssetId, user: AccountId)
    requires asset in limits && (asset, user) in b.records && b.records[(asset, user)].index == limits[asset]
    ensures Owed(b, limits, asset, user) == b.records[(asset, user)].amount
  {
    DivSelf(limits[asset]);
    MulOne(b.records[(asset, user)].amount);
  }

  lemma TomBorrows(supplied: nat, kept: nat, borrowed: nat, price: nat)
    requires 0 < borrowed <= supplied && borrowed <= price * 7 / 10
    ensures Apply(Secured(supplied, kept, price), BorrowCall(Tom, 0, borrowed)) == Lent(supplied, kept, borrowed, price)
  {
    var m := Secured(supplied, kept, price).market;
    TomIsHealthy(supplied, kept, borrowed, price);
    TomIsLentTo(supplied, kept, borrowed, price);
    FirstBorrow(m, m.pools[0], ScaleOf(m, 0), Tom, 0, borrowed);
  }

  /** A healthy borrow within the pool's cash by a user without that debt is just lent. */
  lemma FirstBorrow(m: Market, pool: Pool, sc: Scale, user: AccountId, asset: AssetId, amount: nat)
    requires pool.debt + amount <= pool.supply && (asset, user) !in m.debts.records
    requires BorrowCheck(m, sc, user, asset, amount) == Done
    ensures BorrowPool(m, pool, sc, user, asset, amount) == Lend(m, pool, user, asset, amount)
  {
    assert AccrueBorrower(m, pool, user, asset) == m;
  }

  lemma TomIsLentTo(supplied: nat, kept: nat, borrowed: nat, price: nat)
    requires 0 < borrowed <= supplied
    ensures var m := Secured(supplied, kept, price).market;
            Lend(m, m.pools[0], Tom, 0, borrowed) == (Lent(supplied, kept, borrowed, price).market, Done)
  {
    hide Credit, Enlist, Transfer, FromRational;
    var m, w' := Secured(supplied, kept, price).market, Lent(supplied, kept, borrowed, price).market;
    FirstCredit(m.debts, D, 0, Tom, borrowed);
    PaidOver(m.ledger, LendingPallet, 0, Tom, borrowed);
    var m' := Lend(m, m.pools[0], Tom, 0, borrowed).0;
    assert m'.ledger.balances == w'.ledger.balances;
    assert m'.pools == w'.pools;
  }

  lemma TomIsHealthy(supplied: nat, kept: nat, borrowed: nat, price: nat)
    requires borrowed <= price * 7 / 10
    ensures var m := Secured(supplied, kept, price).market;
            BorrowCheck(m, ScaleOf(m, 0), Tom, 0, borrowed) == Done
  {
    var m := Secured(supplied, kept, price).market;
    var sc := ScaleOf(m, 0);
    NoTimeNoGrowth(m.pools[1]);
    OwedAtIndex(m.supplies, sc.supply, 1, Tom);
    ListOfOne(m.supplies, sc.supply, sc.safePrices, Tom, 1);
    SafeUnit(price);
    MulOne(borrowed);
  }

  /** Seven tenths of a price, floored once per unit. */
  lemma SafeUnit(price: nat)
    ensures MulInt(Mul(price * D, FromRational(7, 10)), 1) == price * 7 / 10
  {
    var f := FromRational(7, 10);
    assert f == 7 * (D / 10);
    assert price * D * f == price * f * D;
    assert price * f == price * 7 * (D / 10);
    FloorBounds(price * 7, 10);
    FloorAtLeast(price * f, D, price * 7 / 10);
    FloorAtMost(price * f, D, price * 7 / 10);
  }

  /** The market is reached from genesis by legal calls. */
  lemma LentIsReached(supplied: nat, kept: nat, borrowed: nat, price: nat)
    requires 0 < borrowed <= supplied && supplied + kept <= U128_MAX && borrowed <= price * 7 / 10
    ensures var w, calls := LentGenesis(supplied, kept, price), LentCalls(supplied, borrowed);
            LegalRun(w, calls) && Run(w, calls) == Lent(supplied, kept, borrowed, price)
  {
    var w, calls := LentGenesis(supplied, kept, price), LentCalls(supplied, borrowed);
    OpenedIsGenesis(supplied, kept, price);
    BeaSupplies(supplied, kept, price);
    TomSupplies(supplied, kept, price);
    TomBorrows(supplied, kept, borrowed, price);
    RunOneMore(w, [], calls[0]);
    RunOneMore(w, calls[..1], calls[1]);
    RunOneMore(w, calls[..2], calls[2]);
    assert [] + [calls[0]] == calls[..1] && calls[..1] + [calls[1]] == calls[..2] && calls[..2] + [calls[2]] == calls;
  }

  // ---------- debt can overtake supply ----------

  const LentOut: nat := 99_999_999_999_999_999_999

  /** 10^20 units supplied, all but one of them borrowed, and one block passed. */
  const OvertakenCalls: seq<Call> := LentCalls(LentOut + 1, LentOut) + [NextBlocks(1)]

  function OvertakenGenesis(): World { LentGenesis(LentOut + 1, 0, 2 * (LentOut + 1)) }

  lemma OvertakenIsReached()
    ensures LegalRun(OvertakenGenesis(), OvertakenCalls)
    ensures Run(OvertakenGenesis(), OvertakenCalls) == Lent(LentOut + 1, 0, LentOut, 2 * (LentOut + 1)).(now := 1)
    ensures Inv(Run(OvertakenGenesis(), OvertakenCalls).market, 1)
  {
    LentIsReached(LentOut + 1, 0, LentOut, 2 * (LentOut + 1));
    RunOneMore(OvertakenGenesis(), LentCalls(LentOut + 1, LentOut), NextBlocks(1));
    ReachableStatesAreSafe(Bea, [GenesisAsset(Bea, LentOut + 1, 1), GenesisAsset(Tom, 1, 2 * (LentOut + 1))], [0, 1], 0, OvertakenCalls);
  }

  /** The accrued debt exceeds the accrued supply, so every withdrawal of the supplier and every
      borrow of the asset traps. */
  lemma DebtMayOvertakeSupply(who: AccountId, amount: nat)
    ensures LegalRun(OvertakenGenesis(), OvertakenCalls)
    ensures var w := Run(OvertakenGenesis(), OvertakenCalls);
            && 0 in w.market.pools
            && w.market.pools[0].debt < w.market.pools[0].supply
            && Accrue(w.market.pools[0], w.now).supply < Accrue(w.market.pools[0], w.now).debt
            && Borrow(w.market, w.now, who, 0, amount).1 == Panicked
            && Withdraw(w.market, w.now, Bea, 0, amount).1 == Panicked
  {
    var m := Lent(LentOut + 1, 0, LentOut, 2 * (LentOut + 1)).market;
    OvertakenIsReached();
    LentOutIsOvertaken(m.pools[0]);
    DebtOvertakesIff(m.pools[0], 1);
    BorrowTrapsIff(m, 1, who, 0, amount);
    BeaIsHealthy(m, ScaleOf(m, 1), Min(amount, SupplyOwed(m, 1, 0, Bea)));
    WithdrawTrapsIff(m, 1, Bea, 0, amount);
  }

  lemma LentOutIsOvertaken(p: Pool)
    requires p == NewPool(0, true, 0).(supply := LentOut + 1, debt := LentOut)
    ensures Overtaken(p, 1)
  {
    assert Utilization(p) == 999_999_999_999_999_999;
    assert DebtRate(p) == 42_349_999_999;
    assert SupplyRate(p) == 42_349_999_998;
  }

  /** Without debts, whatever part of a supply is released is covered. */
  lemma BeaIsHealthy(m: Market, sc: Scale, released: nat)
    requires BooksOk(m, sc) && Bea !in m.debts.lists && released <= Owed(m.supplies, sc.supply, 0, Bea)
    ensures DebtValue(m, sc, Bea) == 0
    ensures MulInt(Weight(sc.safePrices, 0), released) <= SafeSupplyValue(m, sc, Bea)
  {
    ReleaseIsCovered(m, sc, Bea, 0, released);
  }

  // ---------- a pool can record less debt than its only borrower owes ----------

  /** Two units supplied and one borrowed; Bea gives Tom a second one, and supplies another unit
      half-way, which commits an accrual. */
  const OwingCalls: seq<Call> :=
    LentCalls(2, 1) + [TransferCall(Bea, 0, Tom, 1)] + [NextBlocks(22_000_000)] + [SupplyCall(Bea, 0, 1)] + [NextBlocks(22_000_000)]

  function OwingGenesis(): World { LentGenesis(2, 2, 2) }

  /** The pool after the second supply: flooring at the accrual left its debt at one unit. */
  const OwingPool: Pool :=
    NewPool(0, true, 0).(supply := 3, debt := 1, lastUpdated := 22_000_000,
                         totalSupplyIndex := 1_254_100_000_000_000_000, totalDebtIndex := 1_508_200_000_000_000_000)

  lemma OwingPoolIsAccrued(p: Pool)
    requires p == NewPool(0, true, 0).(supply := 2, debt := 1)
    ensures var q := Accrue(p, 22_000_000);
            q.(supply := q.supply + 1) == OwingPool
  {
    assert Utilization(p) == 500_000_000_000_000_000;
    assert DebtRate(p) == 23_100_000_000;
    assert SupplyRate(p) == 11_550_000_000;
    MultiplierIs(p, 22_000_000);
  }

  /** Another 22 million blocks: a debt index above two, and still one unit of recorded debt. */
  lemma OwingPoolFallsBehind()
    ensures Accrue(OwingPool, 44_000_000).debt == 1
    ensures 2 * D <= EffectiveDebtIndex(OwingPool, 44_000_000) < 3 * D
  {
    assert Utilization(OwingPool) == 333_333_333_333_333_333;
    assert DebtRate(OwingPool) == 16_683_333_333;
    MultiplierIs(OwingPool, 22_000_000);
  }

  function Given(): World {
    var w := Lent(2, 2, 1, 2);
    WithLedger(w, Transfer(w.market.ledger, Bea, 0, Tom, 1).0).(now := 22_000_000)
  }

  lemma GivenIsReached()
    ensures var calls := LentCalls(2, 1) + [TransferCall(Bea, 0, Tom, 1)] + [NextBlocks(22_000_000)];
            LegalRun(OwingGenesis(), calls) && Run(OwingGenesis(), calls) == Given()
    ensures Balance(Given().market.ledger, 0, Tom) == 2 && Balance(Given().market.ledger, 0, Bea) == 1
    ensures 0 in Given().market.pools && Given().market.pools[0] == NewPool(0, true, 0).(supply := 2, debt := 1)
    ensures Given().market.debts == Lent(2, 2, 1, 2).market.debts && Given().now == 22_000_000
  {
    LentIsReached(2, 2, 1, 2);
    RunOneMore(OwingGenesis(), LentCalls(2, 1), TransferCall(Bea, 0, Tom, 1));
    RunOneMore(OwingGenesis(), LentCalls(2, 1) + [TransferCall(Bea, 0, Tom, 1)], NextBlocks(22_000_000));
  }

  lemma SupplyDone(m: Market, now: nat, user: AccountId, asset: AssetId, amount: nat, other: AccountId)
    requires asset in m.pools && 0 < amount <= Balance(m.ledger, asset, user)
    requires other != user && other != LendingPallet
    ensures var (m', out) := Supply(m, now, user, asset, amount);
            && out == Done && m'.debts == m.debts
            && asset in m'.pools && m'.pools[asset] == Accrue(m.pools[asset], now).(supply := Accrue(m.pools[asset], now).supply + amount)
            && Balance(m'.ledger, asset, other) == Balance(m.ledger, asset, other)
  {
  }

  lemma OwingIsReached()
    ensures LegalRun(OwingGenesis(), OwingCalls)
    ensures var w := Run(OwingGenesis(), OwingCalls);
            && w.now == 44_000_000
            && 0 in w.market.pools && w.market.pools[0] == OwingPool
            && w.market.debts == Lent(2, 2, 1, 2).market.debts
            && Balance(w.market.ledger, 0, Tom) == 2
  {
    hide Given, Lent, Supply, Accrue, Balance, Run, LegalRun;
    var calls := LentCalls(2, 1) + [TransferCall(Bea, 0, Tom, 1)] + [NextBlocks(22_000_000)];
    GivenIsReached();
    OwingPoolIsAccrued(Given().market.pools[0]);
    SupplyDone(Given().market, 22_000_000, Bea, 0, 1, Tom);
    RunOneMore(OwingGenesis(), calls, SupplyCall(Bea, 0, 1));
    RunOneMore(OwingGenesis(), calls + [SupplyCall(Bea, 0, 1)], NextBlocks(22_000_000));
  }

  /** Tom owes two units, holds two, and cannot repay them: the pool records one. */
  lemma RepaymentMayTrap()
    ensures LegalRun(OwingGenesis(), OwingCalls)
    ensures var w := Run(OwingGenesis(), OwingCalls);
            && DebtOwed(w.market, w.now, 0, Tom) == Balance(w.market.ledger, 0, Tom) == 2
            && Repay(w.market, w.now, Tom, 0, 2).1 == Panicked
  {
    OwingIsReached();
    OwingPoolFallsBehind();
    ReachableStatesAreSafe(Bea, [GenesisAsset(Bea, 4, 1), GenesisAsset(Tom, 1, 2)], [0, 1], 0, OwingCalls);
    var w := Run(OwingGenesis(), OwingCalls);
    TwoUnits(EffectiveDebtIndex(OwingPool, 44_000_000));
    RepayEffect(w.market, w.now, Tom, 0, 2);
  }

  lemma TwoUnits(index: Index)
    requires 2 * D <= index < 3 * D
    ensures Grown(Record(1, D), index).amount == 2
  {
    assert Div(index, D) == index;
  }

  // ---------- overwriting a pool forgets what its users may claim ----------

  /** Anybody may initialise Bea's and Tom's pool again. Records and indices stay in order, but the pool
      records nothing of what Bea is owed and Tom owes, and Tom, who holds it, cannot repay. */
  lemma OverwritingForgetsClaims()
    ensures LegalRun(LentGenesis(100, 1, 200), LentCalls(100, 100))
    ensures var w := Apply(Run(LentGenesis(100, 1, 200), LentCalls(100, 100)), InitPoolCall(0, true));
            && Inv(w.market, w.now)
            && 0 in w.market.pools && w.market.pools[0].supply == w.market.pools[0].debt == 0
            && SupplyOwed(w.market, w.now, 0, Bea) == DebtOwed(w.market, w.now, 0, Tom) == 100
            && Repay(w.market, w.now, Tom, 0, 100).1 == Panicked
  {
    hide Lent, LentCalls, LentGenesis, Inv, Run, LegalRun, Apply, InitPool, SupplyOwed, DebtOwed, Repay;
    LentIsReached(100, 1, 100, 200);
    LentInv();
    OverwrittenIs();
    StillInOrder(Lent(100, 1, 100, 200).market);
    OverwrittenTraps(InitPool(Lent(100, 1, 100, 200).market, 0, 0, true));
  }

  lemma LentInv()
    ensures Inv(Lent(100, 1, 100, 200).market, 0)
  {
    LentIsReached(100, 1, 100, 200);
    ReachableStatesAreSafe(Bea, [GenesisAsset(Bea, 101, 1), GenesisAsset(Tom, 1, 200)], [0, 1], 0, LentCalls(100, 100));
  }

  lemma StillInOrder(m: Market)
    requires Inv(m, 0)
    requires forall k | k in m.supplies.records :: m.supplies.records[k].index == D
    requires forall k | k in m.debts.records :: m.debts.records[k].index == D
    ensures Inv(InitPool(m, 0, 0, true), 0)
  {
    InitPoolKeepsInvIff(m, 0, 0, true);
  }

  lemma OverwrittenIs()
    ensures var m := Lent(100, 1, 100, 200).market;
            && (forall k | k in m.supplies.records :: m.supplies.records[k].index == D)
            && (forall k | k in m.debts.records :: m.debts.records[k].index == D)
    ensures var w, m := Apply(Lent(100, 1, 100, 200), InitPoolCall(0, true)), InitPool(Lent(100, 1, 100, 200).market, 0, 0, true);
            && w.now == 0 && w.market == m
            && 0 in m.pools && m.pools[0] == NewPool(0, true, 0) && m.pools[0].supply == m.pools[0].debt == 0
            && (0, Bea) in m.supplies.records && m.supplies.records[(0, Bea)] == Record(100, D)
            && (0, Tom) in m.debts.records && m.debts.records[(0, Tom)] == Record(100, D)
            && Balance(m.ledger, 0, Tom) == 100
  {
  }

  lemma OverwrittenTraps(m: Market)
    requires Inv(m, 0) && 0 in m.pools && m.pools[0] == NewPool(0, true, 0)
    requires (0, Bea) in m.supplies.records && m.supplies.records[(0, Bea)] == Record(100, D)
    requires (0, Tom) in m.debts.records && m.debts.records[(0, Tom)] == Record(100, D)
    requires Balance(m.ledger, 0, Tom) == 100
    ensures SupplyOwed(m, 0, 0, Bea) == DebtOwed(m, 0, 0, Tom) == 100
    ensures Repay(m, 0, Tom, 0, 100).1 == Panicked
  {
    NoTimeNoGrowth(m.pools[0]);
    OwedAtIndex(m.supplies, ScaleOf(m, 0).supply, 0, Bea);
    OwedAtIndex(m.debts, ScaleOf(m, 0).debt, 0, Tom);
    RepayEffect(m, 0, Tom, 0, 100);
  }

  // ---------- a failed liquidation can keep the payment ----------

  /** Tom owes 100 units, worth 100, against one unit worth 200, whose price then halves. */
  const ShortCalls: seq<Call> := LentCalls(100, 100) + [SetPriceCall(1, 100 * D)]

  function ShortGenesis(): World { LentGenesis(100, 1, 200) }

  function Short(): World {
    var w := Lent(100, 1, 100, 200);
    WithLedger(w, SetPrice(w.market.ledger, 1, 100 * D))
  }

  lemma ShortIsReached()
    ensures LegalRun(ShortGenesis(), ShortCalls)
    ensures Run(ShortGenesis(), ShortCalls) == Short()
    ensures Inv(Short().market, 0)
  {
    LentIsReached(100, 1, 100, 200);
    RunOneMore(ShortGenesis(), LentCalls(100, 100), SetPriceCall(1, 100 * D));
    ReachableStatesAreSafe(Bea, [GenesisAsset(Bea, 101, 1), GenesisAsset(Tom, 1, 200)], [0, 1], 0, ShortCalls);
  }

  /** Tom's two positions at 70 against 100, and what a liquidation of them looks at. */
  ghost predicate TomShort(m: Market) {
    && CanSeize(m, Tom, 0, 1) && m.pools[1].canBeCollateral
    && m.pools[1].closeFactor == D && m.pools[1].discountFactor == FromRational(95, 100)
    && Price(m.ledger, 0) == D && Price(m.ledger, 1) == 100 * D
    && SupplyOwed(m, 0, 1, Tom) == 1 && DebtOwed(m, 0, 0, Tom) == 100
    && SafeSupplyValue(m, ScaleOf(m, 0), Tom) == 70 && DebtValue(m, ScaleOf(m, 0), Tom) == 100
  }

  lemma TomIsShort()
    ensures TomShort(Short().market)
  {
    var m := Short().market;
    var sc := ScaleOf(m, 0);
    NoTimeNoGrowth(m.pools[0]);
    NoTimeNoGrowth(m.pools[1]);
    OwedAtIndex(m.supplies, sc.supply, 1, Tom);
    OwedAtIndex(m.debts, sc.debt, 0, Tom);
    ListOfOne(m.supplies, sc.supply, sc.safePrices, Tom, 1);
    ListOfOne(m.debts, sc.debt, sc.prices, Tom, 0);
    SafeUnit(100);
    MulOne(100);
  }

  /** One unit paid is worth less than a hundredth of the collateral, so nothing is seized. */
  lemma UnitAmounts()
    ensures PayLimit(100 * D, D, FromRational(95, 100), 1) == 95
    ensures GetAmount(100 * D, D, FromRational(95, 100), 1) == 0
  {
  }

  lemma PaymentIsLost(m: Market)
    requires Inv(m, 0) && TomShort(m) && Balance(m.ledger, 0, Bea) == 1
    ensures var (m', out) := Liquidate(m, 0, Bea, Tom, 0, 1, 1);
            && out == Failed(TransferFailed)
            && Balance(m'.ledger, 0, Bea) < 1
            && DebtOwed(m', 0, 0, Tom) == DebtOwed(m, 0, 0, Tom)
  {
    UnitAmounts();
    MulOne(1);
    AmountsFromViews(m, 0, Tom, 0, 1, 1);
    FailedSeizureKeepsPaymentIff(m, 0, Bea, Tom, 0, 1, 1);
    LiquidateEffect(m, 0, Bea, Tom, 0, 1, 1);
  }

  /** Bea's liquidation fails on its empty collateral leg; her unit is gone, Tom's debt is not. */
  lemma LiquidatorMayLosePayment()
    ensures LegalRun(ShortGenesis(), ShortCalls)
    ensures var w := Run(ShortGenesis(), ShortCalls);
            var (m', out) := Liquidate(w.market, w.now, Bea, Tom, 0, 1, 1);
            && out == Failed(TransferFailed)
            && Balance(m'.ledger, 0, Bea) < Balance(w.market.ledger, 0, Bea) == 1
            && DebtOwed(m', w.now, 0, Tom) == DebtOwed(w.market, w.now, 0, Tom)
  {
    ShortIsReached();
    TomIsShort();
    PaymentIsLost(Short().market);
  }

  // ---------- discarded transfer results ----------

  /** Bea opens a pool of 1000 inherent against 5000 paired units. */
  const StockedCalls: seq<Call> := [AddLiquidityCall(Bea, 1, 1000, 5000)]

  function StockedGenesis(): World {
    GenesisWorld(Bea, [GenesisAsset(Bea, 1000, 0), GenesisAsset(Bea, 5000, 0)], [], 0)
  }

  const StockedLedger: Ledger :=
    Ledger(2, map[0 := 1000, 1 := 5000],
           map[(0, Bea) := 0, (1, Bea) := 0, (0, Exchange(0, 1)) := 1000, (1, Exchange(0, 1)) := 5000], 0, map[0 := 0, 1 := 0])

  lemma StockedIsReached()
    ensures LegalRun(StockedGenesis(), StockedCalls)
    ensures var w := Run(StockedGenesis(), StockedCalls);
            && w.market.ledger == StockedLedger
            && Swap.TotalShares(w.shares, 1) == 1000
  {
    var a0, a1 := GenesisAsset(Bea, 1000, 0), GenesisAsset(Bea, 5000, 0);
    var l := Ledger(2, map[0 := 1000, 1 := 5000], map[(0, Bea) := 1000, (1, Bea) := 5000], 0, map[0 := 0, 1 := 0]);
    GenesisOfTwo(Bea, a0, a1);
    assert GenesisStep(Empty, Bea, a0) == Ledger(1, map[0 := 1000], map[(0, Bea) := 1000], 0, map[0 := 0]);
    assert GenesisStep(GenesisStep(Empty, Bea, a0), Bea, a1) == l;
    RunOneMore(StockedGenesis(), [], StockedCalls[0]);
    assert [] + [StockedCalls[0]] == StockedCalls;
    BeaOpensPool(l);
  }

  lemma BeaOpensPool(l: Ledger)
    requires l == Ledger(2, map[0 := 1000, 1 := 5000], map[(0, Bea) := 1000, (1, Bea) := 5000], 0, map[0 := 0, 1 := 0])
    ensures var (v, done) := Swap.AddLiquidity(l, Swap.NoShares, Bea, 1, 1000, 5000);
            done && v.ledger == StockedLedger && Swap.TotalShares(v.shares, 1) == 1000
  {
  }

  /** The payer has nothing and the transfer fails, the pool pays out all the same. */
  lemma UnfundedSwapLowersProduct()
    ensures var (l', quote) := Swap.InherentIn(StockedLedger, Tom, Tom, 1, 100);
            && quote == Swap.Amount(454)
            && Balance(l', 1, Tom) == 454
            && Swap.InherentReserve(l', 1) == 1000 && Swap.PairedReserve(l', 1) == 4546
            && !KeepsProduct(StockedLedger, l', 1)
  {
  }

  /** Asking for exactly the whole reserve is priced beyond anybody's means, and paid out for nothing:
      either reserve can be drained. */
  lemma ExactOutputDrainsPool()
    ensures var (l', quote) := Swap.InherentFor(StockedLedger, Tom, Tom, 1, 5000);
            quote == Swap.Amount(U128_MAX) && Balance(l', 1, Tom) == 5000
            && Swap.InherentReserve(l', 1) == 1000 && Swap.PairedReserve(l', 1) == 0
    ensures var (l', quote) := Swap.PairedFor(StockedLedger, Tom, Tom, 1, 1000);
            quote == Swap.Amount(U128_MAX) && Balance(l', 0, Tom) == 1000
            && Swap.InherentReserve(l', 1) == 0 && Swap.PairedReserve(l', 1) == 5000
  {
    InherentForReserves(StockedLedger, Tom, Tom, 1, 5000);
    PairedForReserves(StockedLedger, Tom, Tom, 1, 1000);
  }

  /** Once the inherent reserve is drained, every addition to the pool divides by zero. */
  lemma DrainedPoolRefusesAdditions(who: AccountId, inherent: nat, paired: nat)
    ensures LegalRun(StockedGenesis(), StockedCalls + [SwapOutCall(Tom, Tom, 1, 0, 1000)])
    ensures var w := Run(StockedGenesis(), StockedCalls + [SwapOutCall(Tom, Tom, 1, 0, 1000)]);
            !Swap.AddLiquidity(w.market.ledger, w.shares, who, 1, inherent, paired).1
  {
    StockedIsReached();
    RunOneMore(StockedGenesis(), StockedCalls, SwapOutCall(Tom, Tom, 1, 0, 1000));
    PairedForReserves(StockedLedger, Tom, Tom, 1, 1000);
    NoReserveNoMint(Swap.PairedFor(StockedLedger, Tom, Tom, 1, 1000).0, Run(StockedGenesis(), StockedCalls).shares, who, inherent, paired);
  }

  lemma NoReserveNoMint(l: Ledger, sh: Swap.Shares, who: AccountId, inherent: nat, paired: nat)
    requires Swap.InherentReserve(l, 1) == 0 && Swap.TotalShares(sh, 1) > 0
    ensures !Swap.AddLiquidity(l, sh, who, 1, inherent, paired).1
  {
  }

  /** Shares are minted for what is offered, not for what is paid: Tom, who holds nothing, offers what is
      in the pool, burns the shares and leaves with half of it. */
  const FreeSharesCalls: seq<Call> := StockedCalls + [AddLiquidityCall(Tom, 1, 1000, 5000)] + [RemoveLiquidityCall(Tom, 1, 1000)]

  lemma FreeSharesPayOut()
    ensures LegalRun(StockedGenesis(), FreeSharesCalls)
    ensures var l := Run(StockedGenesis(), StockedCalls).market.ledger;
            Balance(l, 0, Tom) == Balance(l, 1, Tom) == 0
    ensures var l' := Run(StockedGenesis(), FreeSharesCalls).market.ledger;
            && Balance(l', 0, Tom) == 500 && Balance(l', 1, Tom) == 2500
            && Swap.InherentReserve(l', 1) == 500 && Swap.PairedReserve(l', 1) == 2500
  {
    hide Run, LegalRun, Legal, Apply, Balance, StockedGenesis, Swap.TotalShares, Swap.SharesOf, Swap.InherentReserve, Swap.PairedReserve;
    var w := Run(StockedGenesis(), StockedCalls);
    StockedIsReached();
    TomAddsNothing(w);
    TomRemovesHalf(Apply(w, AddLiquidityCall(Tom, 1, 1000, 5000)));
    RunOneMore(StockedGenesis(), StockedCalls, AddLiquidityCall(Tom, 1, 1000, 5000));
    RunOneMore(StockedGenesis(), StockedCalls + [AddLiquidityCall(Tom, 1, 1000, 5000)], RemoveLiquidityCall(Tom, 1, 1000));
  }

  lemma TomAddsNothing(w: World)
    requires w.market.ledger == StockedLedger && Swap.TotalShares(w.shares, 1) == 1000
    ensures Legal(w, AddLiquidityCall(Tom, 1, 1000, 5000))
    ensures Balance(StockedLedger, 0, Tom) == Balance(StockedLedger, 1, Tom) == 0
    ensures var w' := Apply(w, AddLiquidityCall(Tom, 1, 1000, 5000));
            && w'.market.ledger == StockedLedger
            && Swap.TotalShares(w'.shares, 1) == 2000 && Swap.SharesOf(w'.shares, 1, Tom) >= 1000
  {
  }

  lemma TomRemovesHalf(w: World)
    requires w.market.ledger == StockedLedger
    requires Swap.TotalShares(w.shares, 1) == 2000 && Swap.SharesOf(w.shares, 1, Tom) >= 1000
    ensures Legal(w, RemoveLiquidityCall(Tom, 1, 1000))
    ensures var l' := Apply(w, RemoveLiquidityCall(Tom, 1, 1000)).market.ledger;
            && Balance(l', 0, Tom) == 500 && Balance(l', 1, Tom) == 2500
            && Swap.InherentReserve(l', 1) == 500 && Swap.PairedReserve(l', 1) == 2500
  {
    RemovalReserves(StockedLedger, w.shares, Tom, 1, 1000);
  }
}
