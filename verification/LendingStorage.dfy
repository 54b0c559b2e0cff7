// The lending pallet: storage updated in place, each dispatchable proved against its function on
// the market value.

module LendingStorage {
  import opened Identifiers
  import opened FixedPoint
  import opened AssetLedger
  import AssetsStorage
  import opened InterestModel
  import opened UserBooks
  import opened LendingMarket
  import opened LendingInvariant

  class Lending {
    const assets: AssetsStorage.Assets
    var userDebts: map<(AssetId, AccountId), Record>
    var userSupplies: map<(AssetId, AccountId), Record>
    var pools: map<AssetId, Pool>
    var userSupplySet: map<AccountId, seq<AssetId>>
    var userDebtSet: map<AccountId, seq<AssetId>>
    var liquidationThreshold: nat
    var blockNumber: nat

    ghost function SupplyBook(): Book
      reads this
    {
      Book(userSupplies, userSupplySet)
    }

    ghost function DebtBook(): Book
      reads this
    {
      Book(userDebts, userDebtSet)
    }

    ghost function State(): Market
      reads this, assets
    {
      Market(assets.State(), pools, SupplyBook(), DebtBook(), liquidationThreshold)
    }

    ghost predicate Valid()
      reads this, assets
    {
      assets.Valid() && Inv(State(), blockNumber)
    }

    /** What the code below relies on at run time; the rest of Valid is what it maintains. */
    ghost predicate Running()
      reads this, assets
    {
      assets.Valid() && forall a | a in pools :: pools[a].lastUpdated <= blockNumber
    }

    /** Genesis: a pool for each configured id, at block `now`. */
    constructor (assets: AssetsStorage.Assets, ids: seq<AssetId>, now: nat)
      requires assets.Valid()
      ensures Valid() && this.assets == assets && blockNumber == now
      ensures State() == InitPools(Opening(assets.State()), now, ids)
    {
      this.assets := assets;
      userDebts, userSupplies, pools := map[], map[], map[];
      userSupplySet, userDebtSet := map[], map[];
      liquidationThreshold, blockNumber := D, now;
      new;
      assert ids[..0] == [];
      for i := 0 to |ids|
        invariant assets.Valid() && this.assets == assets && blockNumber == now
        invariant State() == InitPools(Opening(assets.State()), now, ids[..i])
      {
        assert ids[..i + 1][..i] == ids[..i];
        pools := pools[ids[i] := NewPool(ids[i], true, blockNumber)];
      }
      assert ids[..|ids|] == ids;
      GenesisInv(assets.State(), now, ids);
    }

    // ---------- accrual ----------

    /** Both multipliers come from the pool as it was; then totals, indices and block are written. */
    method AccrueInterest(pool: Pool) returns (p: Pool)
      requires pool.lastUpdated <= blockNumber
      ensures p == Accrue(pool, blockNumber)
    {
      p := pool;
      if p.lastUpdated == blockNumber {
        return;
      }
      var elapsed := blockNumber - p.lastUpdated;
      var supplyMultiplier := D + Mul(SupplyRate(p), FromInteger(elapsed));
      var debtMultiplier := D + Mul(DebtRate(p), FromInteger(elapsed));
      Grows(supplyMultiplier, p.totalSupplyIndex);
      Grows(debtMultiplier, p.totalDebtIndex);
      p := p.(supply := MulInt(supplyMultiplier, p.supply));
      p := p.(totalSupplyIndex := Mul(p.totalSupplyIndex, supplyMultiplier));
      p := p.(debt := MulInt(debtMultiplier, p.debt));
      p := p.(totalDebtIndex := Mul(p.totalDebtIndex, debtMultiplier));
      p := p.(lastUpdated := blockNumber);
    }

    method AccrueSupplyWithInterest(pool: Pool, asset: AssetId, user: AccountId)
      modifies this`userSupplies
      ensures SupplyBook() == AccrueUser(old(SupplyBook()), pool.totalSupplyIndex, asset, user)
    {
      if (asset, user) in userSupplies {
        var userSupply := userSupplies[(asset, user)];
        var amount := MulInt(Div(pool.totalSupplyIndex, userSupply.index), userSupply.amount);
        userSupplies := userSupplies[(asset, user) := Record(amount, pool.totalSupplyIndex)];
      }
    }

    method AccrueDebtWithInterest(pool: Pool, asset: AssetId, user: AccountId)
      modifies this`userDebts
      ensures DebtBook() == AccrueUser(old(DebtBook()), pool.totalDebtIndex, asset, user)
    {
      if (asset, user) in userDebts {
        var userDebt := userDebts[(asset, user)];
        var amount := MulInt(Div(pool.totalDebtIndex, userDebt.index), userDebt.amount);
        userDebts := userDebts[(asset, user) := Record(amount, pool.totalDebtIndex)];
      }
    }

    // ---------- user records ----------

    /** Traps, before anything is written, when the record does not cover a negative change. */
    method UpdateUserSupply(pool: Pool, asset: AssetId, account: AccountId, amount: nat, positive: bool) returns (fits: bool)
      modifies this`userSupplies, this`userSupplySet
      ensures fits == (positive || DebitFits(old(SupplyBook()), pool.totalSupplyIndex, asset, account, amount))
      ensures !fits ==> SupplyBook() == old(SupplyBook())
      ensures fits && positive ==> SupplyBook() == Credit(old(SupplyBook()), pool.totalSupplyIndex, asset, account, amount)
      ensures fits && !positive ==> SupplyBook() == Debit(old(SupplyBook()), pool.totalSupplyIndex, asset, account, amount)
    {
      if (asset, account) in userSupplies {
        var userSupply := userSupplies[(asset, account)];
        userSupply := Record(MulInt(Div(pool.totalSupplyIndex, userSupply.index), userSupply.amount), pool.totalSupplyIndex);
        if positive {
          userSupply := userSupply.(amount := userSupply.amount + amount);
        } else if userSupply.amount < amount {
          return false;
        } else {
          userSupply := userSupply.(amount := userSupply.amount - amount);
        }
        if userSupply.amount != 0 {
          userSupplies := userSupplies[(asset, account) := userSupply];
        } else {
          userSupplies := userSupplies - {(asset, account)};
          var list := if account in userSupplySet then userSupplySet[account] else [];
          userSupplySet := userSupplySet[account := Without(list, asset)];
        }
      } else if amount != 0 {
        userSupplies := userSupplies[(asset, account) := Record(amount, pool.totalSupplyIndex)];
      }
      return true;
    }

    method UpdateUserDebt(pool: Pool, asset: AssetId, account: AccountId, amount: nat, positive: bool) returns (fits: bool)
      modifies this`userDebts, this`userDebtSet
      ensures fits == (positive || DebitFits(old(DebtBook()), pool.totalDebtIndex, asset, account, amount))
      ensures !fits ==> DebtBook() == old(DebtBook())
      ensures fits && positive ==> DebtBook() == Credit(old(DebtBook()), pool.totalDebtIndex, asset, account, amount)
      ensures fits && !positive ==> DebtBook() == Debit(old(DebtBook()), pool.totalDebtIndex, asset, account, amount)
    {
      if (asset, account) in userDebts {
        var userDebt := userDebts[(asset, account)];
        userDebt := Record(MulInt(Div(pool.totalDebtIndex, userDebt.index), userDebt.amount), pool.totalDebtIndex);
        if positive {
          userDebt := userDebt.(amount := userDebt.amount + amount);
        } else if userDebt.amount < amount {
          return false;
        } else {
          userDebt := userDebt.(amount := userDebt.amount - amount);
        }
        if userDebt.amount != 0 {
          userDebts := userDebts[(asset, account) := userDebt];
        } else {
          userDebts := userDebts - {(asset, account)};
          var list := if account in userDebtSet then userDebtSet[account] else [];
          userDebtSet := userDebtSet[account := Without(list, asset)];
        }
      } else if amount != 0 {
        userDebts := userDebts[(asset, account) := Record(amount, pool.totalDebtIndex)];
      }
      return true;
    }

    method EnlistSupply(asset: AssetId, account: AccountId)
      modifies this`userSupplySet
      ensures SupplyBook() == Enlist(old(SupplyBook()), asset, account)
    {
      var list := if account in userSupplySet then userSupplySet[account] else [];
      if asset !in list {
        userSupplySet := userSupplySet[account := list + [asset]];
      }
    }

    method EnlistDebt(asset: AssetId, account: AccountId)
      modifies this`userDebtSet
      ensures DebtBook() == Enlist(old(DebtBook()), asset, account)
    {
      var list := if account in userDebtSet then userDebtSet[account] else [];
      if asset !in list {
        userDebtSet := userDebtSet[account := list + [asset]];
      }
    }

    // ---------- views ----------

    /** The view recomputes the effective index of the stored pool, whatever block it is from. */
    method GetUserSupplyWithInterest(asset: AssetId, user: AccountId) returns (amount: nat)
      requires asset in pools ==> pools[asset].lastUpdated <= blockNumber
      ensures amount == Owed(SupplyBook(), SupplyLimits(pools, blockNumber), asset, user)
    {
      if asset !in pools {
        return 0;
      }
      var pool := pools[asset];
      var multiplier := D + Mul(SupplyRate(pool), FromInteger(blockNumber - pool.lastUpdated));
      var index := Mul(pool.totalSupplyIndex, multiplier);
      assert index == EffectiveSupplyIndex(pool, blockNumber);
      if (asset, user) in userSupplies {
        var userSupply := userSupplies[(asset, user)];
        amount := MulInt(Div(index, userSupply.index), userSupply.amount);
      } else {
        amount := 0;
      }
    }

    method GetUserDebtWithInterest(asset: AssetId, user: AccountId) returns (amount: nat)
      requires asset in pools ==> pools[asset].lastUpdated <= blockNumber
      ensures amount == Owed(DebtBook(), DebtLimits(pools, blockNumber), asset, user)
    {
      if asset !in pools {
        return 0;
      }
      var pool := pools[asset];
      var multiplier := D + Mul(DebtRate(pool), FromInteger(blockNumber - pool.lastUpdated));
      var index := Mul(pool.totalDebtIndex, multiplier);
      assert index == EffectiveDebtIndex(pool, blockNumber);
      if (asset, user) in userDebts {
        var userDebt := userDebts[(asset, user)];
        amount := MulInt(Div(index, userDebt.index), userDebt.amount);
      } else {
        amount := 0;
      }
    }

    /** The first loop: traps on a listed asset whose pool is missing. */
    method SupplyTotals(user: AccountId) returns (defined: bool, balance: nat, converted: nat)
      requires Running()
      ensures defined == UserInfoDefined(State(), user)
      ensures defined ==> balance == SupplyValue(State(), ScaleOf(State(), blockNumber), user)
      ensures defined ==> converted == SafeSupplyValue(State(), ScaleOf(State(), blockNumber), user)
    {
      hide Owed, Prices, SafePrices, MulInt, Mul, Conserved;
      balance, converted := 0, 0;
      var supplied := if user in userSupplySet then userSupplySet[user] else [];
      ghost var limits := SupplyLimits(pools, blockNumber);
      ghost var prices, safePrices := Prices(pools, assets.State()), SafePrices(pools, assets.State());
      for i := 0 to |supplied|
        invariant forall k | 0 <= k < i :: supplied[k] in pools
        invariant balance == ListValue(SupplyBook(), limits, prices, user, supplied[..i])
        invariant converted == ListValue(SupplyBook(), limits, safePrices, user, supplied[..i])
      {
        var asset := supplied[i];
        var amount := GetUserSupplyWithInterest(asset, user);
        var price := assets.GetRate(asset);
        if asset !in pools {
          return false, balance, converted;
        }
        RoundOf(pools, assets.State(), SupplyBook(), limits, user, supplied, i);
        balance := balance + MulInt(price, amount);
        converted := converted + MulInt(Mul(price, pools[asset].safeFactor), amount);
      }
      assert supplied[..|supplied|] == supplied;
      return true, balance, converted;
    }

    method DebtTotal(user: AccountId) returns (balance: nat)
      requires Running()
      ensures balance == DebtValue(State(), ScaleOf(State(), blockNumber), user)
    {
      balance := 0;
      var owing := if user in userDebtSet then userDebtSet[user] else [];
      ghost var limits, prices := DebtLimits(pools, blockNumber), Prices(pools, assets.State());
      for i := 0 to |owing|
        invariant balance == ListValue(DebtBook(), limits, prices, user, owing[..i])
      {
        var asset := owing[i];
        var amount := GetUserDebtWithInterest(asset, user);
        balance := balance + MulInt(assets.GetRate(asset), amount);
        RoundOf(pools, assets.State(), DebtBook(), limits, user, owing, i);
      }
      assert owing[..|owing|] == owing;
    }

    /** `get_user_info`: total supply, safe-factor-weighted supply, total debt. */
    method GetUserInfo(user: AccountId) returns (defined: bool, supplyBalance: nat, supplyConverted: nat, debtBalance: nat)
      requires Running()
      ensures defined == UserInfoDefined(State(), user)
      ensures defined ==> supplyBalance == SupplyValue(State(), ScaleOf(State(), blockNumber), user)
      ensures defined ==> supplyConverted == SafeSupplyValue(State(), ScaleOf(State(), blockNumber), user)
      ensures defined ==> debtBalance == DebtValue(State(), ScaleOf(State(), blockNumber), user)
    {
      defined, supplyBalance, supplyConverted := SupplyTotals(user);
      debtBalance := DebtTotal(user);
    }

    // ---------- the writing half of each dispatchable ----------

    method TakeIn(pool: Pool, account: AccountId, asset: AssetId, amount: nat) returns (out: Outcome)
      requires assets.Valid()
      modifies this`userSupplies, this`userSupplySet, this`pools, assets
      ensures assets.Valid()
      ensures (State(), out) == LendingMarket.TakeIn(old(State()), pool, account, asset, amount)
    {
      var ok := assets.Transfer(account, asset, LendingPallet, amount);
      if !ok {
        return Failed(TransferFailed);
      }
      var _ := UpdateUserSupply(pool, asset, account, amount, true);
      var p := pool.(supply := pool.supply + amount);
      EnlistSupply(asset, account);
      pools := pools[asset := p];
      return Done;
    }

    method PayOut(pool: Pool, account: AccountId, asset: AssetId, paid: nat) returns (out: Outcome)
      requires assets.Valid()
      modifies this`userSupplies, this`userSupplySet, this`pools, assets
      ensures assets.Valid()
      ensures (State(), out) == LendingMarket.PayOut(old(State()), pool, account, asset, paid)
    {
      var ok := assets.Transfer(LendingPallet, asset, account, paid);
      if !ok {
        return Failed(TransferFailed);
      }
      var fits := UpdateUserSupply(pool, asset, account, paid, false);
      if !fits || pool.supply < paid {
        return Panicked;
      }
      var p := pool.(supply := pool.supply - paid);
      pools := pools[asset := p];
      return Done;
    }

    method Lend(pool: Pool, account: AccountId, asset: AssetId, amount: nat) returns (out: Outcome)
      requires assets.Valid()
      modifies this`userDebts, this`userDebtSet, this`pools, assets
      ensures assets.Valid()
      ensures (State(), out) == LendingMarket.Lend(old(State()), pool, account, asset, amount)
    {
      var ok := assets.Transfer(LendingPallet, asset, account, amount);
      if !ok {
        return Failed(TransferFailed);
      }
      var _ := UpdateUserDebt(pool, asset, account, amount, true);
      var p := pool.(debt := pool.debt + amount);
      EnlistDebt(asset, account);
      pools := pools[asset := p];
      return Done;
    }

    /** A trap leaves the payment and the user's record written; the executor discards them. */
    method TakeBack(pool: Pool, account: AccountId, asset: AssetId, paid: nat) returns (out: Outcome)
      requires assets.Valid()
      modifies this`userDebts, this`userDebtSet, this`pools, assets
      ensures assets.Valid()
      ensures (State(), out) == LendingMarket.TakeBack(old(State()), pool, account, asset, paid)
    {
      var ok := assets.Transfer(account, asset, LendingPallet, paid);
      if !ok {
        return Failed(TransferFailed);
      }
      var fits := UpdateUserDebt(pool, asset, account, paid, false);
      if !fits || pool.debt < paid {
        return Panicked;
      }
      var p := pool.(debt := pool.debt - paid);
      pools := pools[asset := p];
      return Done;
    }

    method Settle(payPool: Pool, getPool: Pool, target: AccountId, pay: AssetId, get: AssetId, paid: nat, seized: nat) returns (out: Outcome)
      modifies this`userSupplies, this`userSupplySet, this`userDebts, this`userDebtSet, this`pools
      ensures (State(), out) == LendingMarket.Settle(old(State()), payPool, getPool, target, pay, get, paid, seized)
    {
      var fits := UpdateUserSupply(getPool, get, target, seized, false);
      if !fits {
        return Panicked;
      }
      fits := UpdateUserDebt(payPool, pay, target, paid, false);
      if !fits {
        return Panicked;
      }
      pools := pools[get := getPool];
      pools := pools[pay := payPool];
      return Done;
    }

    method Seize(payPool: Pool, getPool: Pool, account: AccountId, target: AccountId, pay: AssetId, get: AssetId, paid: nat) returns (out: Outcome)
      requires assets.Valid() && Price(assets.State(), get) > 0 && getPool.discountFactor > 0
      modifies this`userSupplies, this`userSupplySet, this`userDebts, this`userDebtSet, this`pools, assets
      ensures assets.Valid()
      ensures (State(), out) == LendingMarket.Seize(old(State()), payPool, getPool, account, target, pay, get, paid)
    {
      hide Transfer, LendingMarket.Settle, MulInt, Div, Conserved;
      var getPrice, payPrice := assets.GetRate(get), assets.GetRate(pay);
      var seized := MulInt(Div(Div(payPrice, getPrice), getPool.discountFactor), paid);
      var ok := assets.Transfer(account, pay, LendingPallet, paid);
      if !ok {
        return Failed(TransferFailed);
      }
      ok := assets.Transfer(LendingPallet, get, account, seized);
      if !ok {
        return Failed(TransferFailed);
      }
      out := Settle(payPool, getPool, target, pay, get, paid, seized);
    }

    // ---------- dispatchables ----------

    method NextBlock(blocks: nat)
      requires Running()
      modifies this`blockNumber
      ensures Running() && State() == old(State()) && blockNumber == old(blockNumber) + blocks
    {
      blockNumber := blockNumber + blocks;
    }

    /** Overwrites whatever pool the id had. */
    method InitPool(id: AssetId, canBeCollateral: bool)
      requires Running()
      modifies this`pools
      ensures Running()
      ensures State() == LendingMarket.InitPool(old(State()), blockNumber, id, canBeCollateral)
      ensures old(Valid()) && id !in old(pools) ==> Valid()
    {
      if Valid() {
        InitPoolKeepsInvIff(State(), blockNumber, id, canBeCollateral);
      }
      pools := pools[id := NewPool(id, canBeCollateral, blockNumber)];
    }

    method Supply(account: AccountId, asset: AssetId, amount: nat) returns (out: Outcome)
      requires Running()
      modifies this`userSupplies, this`userSupplySet, this`pools, assets
      ensures assets.Valid()
      ensures (State(), out) == LendingMarket.Supply(old(State()), blockNumber, account, asset, amount)
      ensures old(Valid()) && out != Panicked ==> Valid()
    {
      if Valid() {
        SupplyEffect(State(), blockNumber, account, asset, amount);
      }
      if asset !in pools {
        return Failed(PoolNotExist);
      }
      var pool := AccrueInterest(pools[asset]);
      out := TakeIn(pool, account, asset, amount);
    }

    method Withdraw(account: AccountId, asset: AssetId, amount: nat) returns (out: Outcome)
      requires Running()
      modifies this`userSupplies, this`userSupplySet, this`pools, assets
      ensures assets.Valid()
      ensures (State(), out) == LendingMarket.Withdraw(old(State()), blockNumber, account, asset, amount)
      ensures old(Valid()) && out != Panicked ==> Valid()
    {
      if Valid() {
        WithdrawEffect(State(), blockNumber, account, asset, amount);
      }
      if asset !in pools {
        return Failed(PoolNotExist);
      }
      var pool := AccrueInterest(pools[asset]);
      out := WithdrawPool(pool, account, asset, amount);
    }

    method WithdrawPool(pool: Pool, account: AccountId, asset: AssetId, amount: nat) returns (out: Outcome)
      requires Running()
      modifies this`userSupplies, this`userSupplySet, this`pools, assets
      ensures assets.Valid()
      ensures (State(), out) == LendingMarket.WithdrawPool(old(State()), pool, old(ScaleOf(State(), blockNumber)), account, asset, amount)
    {
      AccrueSupplyWithInterest(pool, asset, account);
      if (asset, account) !in userSupplies {
        return Failed(UserNoSupply);
      }
      var paid := amount;
      if userSupplies[(asset, account)].amount < paid {
        paid := userSupplies[(asset, account)].amount;
      }
      var check := CheckWithdraw(pool, account, asset, paid);
      if check != Done {
        return check;
      }
      out := PayOut(pool, account, asset, paid);
    }

    method CheckWithdraw(pool: Pool, account: AccountId, asset: AssetId, paid: nat) returns (out: Outcome)
      requires Running()
      ensures out == WithdrawCheck(State(), pool, ScaleOf(State(), blockNumber), account, asset, paid)
    {
      var defined, _, convertedSupply, convertedBorrow := GetUserInfo(account);
      if !defined {
        return Panicked;
      }
      var price := assets.GetRate(asset);
      var released := MulInt(Mul(price, pool.safeFactor), paid);
      if convertedSupply < released {
        return Panicked;
      }
      convertedSupply := convertedSupply - released;
      if MulInt(liquidationThreshold, convertedBorrow) > convertedSupply {
        return Failed(BelowLiquidationThreshold);
      }
      if pool.supply < pool.debt {
        return Panicked;
      }
      if pool.supply - pool.debt < paid {
        return Failed(NotEnoughLiquidity);
      }
      return Done;
    }

    method Borrow(account: AccountId, asset: AssetId, amount: nat) returns (out: Outcome)
      requires Running()
      modifies this`userDebts, this`userDebtSet, this`pools, assets
      ensures assets.Valid()
      ensures (State(), out) == LendingMarket.Borrow(old(State()), blockNumber, account, asset, amount)
      ensures old(Valid()) && out != Panicked ==> Valid()
    {
      if Valid() {
        BorrowEffect(State(), blockNumber, account, asset, amount);
      }
      if asset !in pools {
        return Failed(PoolNotExist);
      }
      var pool := AccrueInterest(pools[asset]);
      out := BorrowPool(pool, account, asset, amount);
    }

    method BorrowPool(pool: Pool, account: AccountId, asset: AssetId, amount: nat) returns (out: Outcome)
      requires Running()
      modifies this`userDebts, this`userDebtSet, this`pools, assets
      ensures assets.Valid()
      ensures (State(), out) == LendingMarket.BorrowPool(old(State()), pool, old(ScaleOf(State(), blockNumber)), account, asset, amount)
    {
      if pool.supply < pool.debt {
        return Panicked;
      }
      if pool.supply - pool.debt < amount {
        return Failed(NotEnoughLiquidity);
      }
      AccrueDebtWithInterest(pool, asset, account);
      var check := CheckBorrow(account, asset, amount);
      if check != Done {
        return check;
      }
      out := Lend(pool, account, asset, amount);
    }

    method CheckBorrow(account: AccountId, asset: AssetId, amount: nat) returns (out: Outcome)
      requires Running()
      ensures out == BorrowCheck(State(), ScaleOf(State(), blockNumber), account, asset, amount)
    {
      var defined, _, convertedSupply, convertedBorrow := GetUserInfo(account);
      if !defined {
        return Panicked;
      }
      var price := assets.GetRate(asset);
      convertedBorrow := convertedBorrow + MulInt(price, amount);
      if MulInt(liquidationThreshold, convertedBorrow) > convertedSupply {
        return Failed(BelowLiquidationThreshold);
      }
      return Done;
    }

    method Repay(account: AccountId, asset: AssetId, amount: nat) returns (out: Outcome)
      requires Running()
      modifies this`userDebts, this`userDebtSet, this`pools, assets
      ensures assets.Valid()
      ensures (State(), out) == LendingMarket.Repay(old(State()), blockNumber, account, asset, amount)
      ensures old(Valid()) && out != Panicked ==> Valid()
    {
      if Valid() {
        RepayEffect(State(), blockNumber, account, asset, amount);
      }
      if asset !in pools {
        return Failed(PoolNotExist);
      }
      var pool := AccrueInterest(pools[asset]);
      out := RepayPool(pool, account, asset, amount);
    }

    method RepayPool(pool: Pool, account: AccountId, asset: AssetId, amount: nat) returns (out: Outcome)
      requires assets.Valid()
      modifies this`userDebts, this`userDebtSet, this`pools, assets
      ensures assets.Valid()
      ensures (State(), out) == LendingMarket.RepayPool(old(State()), pool, account, asset, amount)
    {
      AccrueDebtWithInterest(pool, asset, account);
      if (asset, account) !in userDebts {
        return Failed(UserNoDebt);
      }
      var paid := amount;
      if userDebts[(asset, account)].amount < paid {
        paid := userDebts[(asset, account)].amount;
      }
      out := TakeBack(pool, account, asset, paid);
    }

    method Liquidate(account: AccountId, target: AccountId, pay: AssetId, get: AssetId, amount: nat) returns (out: Outcome)
      requires Running()
      modifies this`userSupplies, this`userSupplySet, this`userDebts, this`userDebtSet, this`pools, assets
      ensures assets.Valid()
      ensures (State(), out) == LendingMarket.Liquidate(old(State()), blockNumber, account, target, pay, get, amount)
      ensures old(Valid()) && out != Panicked ==> Valid()
    {
      if Valid() {
        LiquidateEffect(State(), blockNumber, account, target, pay, get, amount);
      }
      if get !in pools {
        return Failed(PoolNotExist);
      }
      if !pools[get].canBeCollateral {
        return Failed(AssetNotCollateral);
      }
      if pay !in pools {
        return Failed(PoolNotExist);
      }
      var payPool := AccrueInterest(pools[pay]);
      var getPool := AccrueInterest(pools[get]);
      out := LiquidatePools(payPool, getPool, account, target, pay, get, amount);
    }

    method LiquidatePools(payPool: Pool, getPool: Pool, account: AccountId, target: AccountId, pay: AssetId, get: AssetId, amount: nat) returns (out: Outcome)
      requires Running()
      modifies this`userSupplies, this`userSupplySet, this`userDebts, this`userDebtSet, this`pools, assets
      ensures assets.Valid()
      ensures (State(), out)
              == LendingMarket.LiquidatePools(old(State()), payPool, getPool, old(ScaleOf(State(), blockNumber)), account, target, pay, get, amount)
    {
      AccrueSupplyWithInterest(getPool, get, target);
      AccrueDebtWithInterest(payPool, pay, target);
      var check, paid := CheckLiquidate(getPool, target, pay, get, amount);
      if check != Done {
        return check;
      }
      out := Seize(payPool, getPool, account, target, pay, get, paid);
    }

    /** The threshold, the two limits and the payment they leave. */
    method CheckLiquidate(getPool: Pool, target: AccountId, pay: AssetId, get: AssetId, amount: nat) returns (out: Outcome, paid: nat)
      requires Running()
      ensures out == LiquidateCheck(State(), getPool, ScaleOf(State(), blockNumber), target, pay, get)
      ensures out == Done ==>
                && (get, target) in userSupplies && (pay, target) in userDebts
                && Price(assets.State(), get) > 0 && Price(assets.State(), pay) > 0 && getPool.discountFactor > 0
                && paid == PaidAmount(State(), getPool, target, pay, get, amount)
    {
      paid := 0;
      var defined, _, convertedSupply, convertedBorrow := GetUserInfo(target);
      if !defined {
        return Panicked, paid;
      }
      if MulInt(liquidationThreshold, convertedBorrow) <= convertedSupply {
        return Failed(AboveLiquidationThreshold), paid;
      }
      if (get, target) !in userSupplies {
        return Failed(UserNoSupply), paid;
      }
      var getLimit := MulInt(getPool.closeFactor, userSupplies[(get, target)].amount);
      var getPrice, payPrice := assets.GetRate(get), assets.GetRate(pay);
      if payPrice == 0 {
        return Panicked, paid;
      }
      var payLimit := MulInt(Mul(Div(getPrice, payPrice), getPool.discountFactor), getLimit);
      if (pay, target) !in userDebts {
        return Failed(UserNoSupply), paid;
      }
      paid := amount;
      if payLimit < paid {
        paid := payLimit;
      }
      if userDebts[(pay, target)].amount < paid {
        paid := userDebts[(pay, target)].amount;
      }
      if getPrice == 0 || getPool.discountFactor == 0 {
        return Panicked, paid;
      }
      return Done, paid;
    }
  }
}
