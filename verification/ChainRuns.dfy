// What holds over whole runs of the chain, from genesis, for every interleaving of calls.

module ChainRuns {
  import opened Identifiers
  import opened FixedPoint
  import opened ConstantProduct
  import opened AssetLedger
  import opened InterestModel
  import opened UserBooks
  import opened LendingMarket
  import opened LendingSteps
  import opened LendingInvariant
  import opened LendingDrift
  import Swap = SwapExchange
  import opened SwapSafety
  import opened ChainState

  function Run(w: World, calls: seq<Call>): World {
    if calls == [] then w
    else Apply(Run(w, calls[..|calls| - 1]), calls[|calls| - 1])
  }

  predicate LegalRun(w: World, calls: seq<Call>) {
    calls == [] || (LegalRun(w, calls[..|calls| - 1]) && Legal(Run(w, calls[..|calls| - 1]), calls[|calls| - 1]))
  }

  lemma RunOneMore(w: World, calls: seq<Call>, c: Call)
    ensures Run(w, calls + [c]) == Apply(Run(w, calls), c)
    ensures LegalRun(w, calls + [c]) <==> LegalRun(w, calls) && Legal(Run(w, calls), c)
  {
    assert (calls + [c])[..|calls|] == calls;
  }

  function GenesisWorld(owner: AccountId, assets: seq<GenesisAsset>, pools: seq<AssetId>, now: nat): World {
    World(now, InitPools(Opening(Genesis(Empty, owner, assets)), now, pools), Swap.NoShares)
  }

  // ---------- tallies ----------

  type Tallies = map<AssetId, Tally>

  /** What a liquidation moves past the totals of pool `a`. */
  ghost function PaidInto(m: Market, now: nat, c: Call, a: AssetId): nat {
    if c.LiquidateCall? && a == c.pay && CanSeize(m, c.target, c.pay, c.get)
       && Liquidate(m, now, c.who, c.target, c.pay, c.get, c.amount).1 == Done
    then PaymentOf(m, now, c.target, c.pay, c.get, c.amount) else 0
  }

  ghost function SeizedFrom(m: Market, now: nat, c: Call, a: AssetId): nat {
    if c.LiquidateCall? && a == c.get && CanSeize(m, c.target, c.pay, c.get)
       && Liquidate(m, now, c.who, c.target, c.pay, c.get, c.amount).1 == Done
    then SeizureOf(m, now, c.target, c.pay, c.get, c.amount) else 0
  }

  /** The history of one pool after a call. */
  ghost function NextTally(w: World, c: Call, a: AssetId, t: Tally): Tally
    requires a in w.market.pools && a in Apply(w, c).market.pools
  {
    Count(t, w.market.pools[a], Apply(w, c).market.pools[a])
    .(paid := t.paid + PaidInto(w.market, w.now, c, a),
      seized := t.seized + SeizedFrom(w.market, w.now, c, a))
  }

  ghost function NextTallies(w: World, c: Call, ts: Tallies): Tallies {
    map a | a in Apply(w, c).market.pools ::
      if a in w.market.pools && a in ts then NextTally(w, c, a, ts[a]) else Untouched
  }

  ghost function RunTallies(w: World, calls: seq<Call>, ts: Tallies): Tallies {
    if calls == [] then ts
    else NextTallies(Run(w, calls[..|calls| - 1]), calls[|calls| - 1], RunTallies(w, calls[..|calls| - 1], ts))
  }

  /** Every pool's claims, totals and cash are within what its history allows. */
  ghost predicate TalliesOk(w: World, ts: Tallies) {
    forall a | a in w.market.pools :: a in ts && PoolBounded(w.market, a, ts[a])
  }

  lemma OutsideKeepsPoolBounded(w: World, c: Call, a: AssetId, t: Tally)
    requires WorldInv(w) && Legal(w, c) && OutsideLending(c)
    requires a in w.market.pools && PoolBounded(w.market, a, t)
    ensures a in Apply(w, c).market.pools
    ensures PoolBounded(Apply(w, c).market, a, NextTally(w, c, a, t))
  {
    OutsideLeavesPallet(w, c);
  }

  /** The pool-level view of a lending call: what flowed through pool `a`. */
  lemma LendingCallFlows(w: World, c: Call, a: AssetId)
    requires WorldInv(w) && Legal(w, c) && a in w.market.pools
    requires c.SupplyCall? || c.WithdrawCall? || c.BorrowCall? || c.RepayCall?
    ensures var m' := Apply(w, c).market;
            a in m'.pools && Flows(w.market, m', a, Accrue(w.market.pools[a], w.now), 0)
  {
    hide Flows, Accrue, ScaleOf, WorldInv, TakeIn, WithdrawPool, BorrowPool, RepayPool;
    var m, now := w.market, w.now;
    var r := Accrue(m.pools[a], now);
    NoFlow(m, m, a, r);
    if c.asset in m.pools {
      var pool, sc := Accrue(m.pools[c.asset], now), ScaleOf(m, now);
      match c
      case SupplyCall(who, asset, amount) =>
        TakeInFlows(m, pool, who, asset, amount, a, r);
      case WithdrawCall(who, asset, amount) =>
        if WithdrawPool(m, pool, sc, who, asset, amount).1 != Panicked {
          WithdrawFlows(m, pool, sc, who, asset, amount, a, r);
        }
      case BorrowCall(who, asset, amount) =>
        BorrowFlows(m, pool, sc, who, asset, amount, a, r);
      case RepayCall(who, asset, amount) =>
        if RepayPool(m, pool, who, asset, amount).1 != Panicked {
          RepayFlows(m, pool, who, asset, amount, a, r);
        }
    }
  }

  lemma LendingKeepsPoolBounded(w: World, c: Call, a: AssetId, t: Tally)
    requires WorldInv(w) && Legal(w, c) && a in w.market.pools && PoolBounded(w.market, a, t)
    requires c.SupplyCall? || c.WithdrawCall? || c.BorrowCall? || c.RepayCall?
    ensures a in Apply(w, c).market.pools
    ensures PoolBounded(Apply(w, c).market, a, NextTally(w, c, a, t))
  {
    LendingCallFlows(w, c, a);
    assert PoolOk(w.market.pools[a], w.now);
    FlowsBoundNext(w, c, Apply(w, c).market, a, t);
  }

  lemma FlowsBoundNext(w: World, c: Call, m': Market, a: AssetId, t: Tally)
    requires !c.LiquidateCall? && m' == Apply(w, c).market && a in w.market.pools && a in m'.pools
    requires PoolOk(w.market.pools[a], w.now) && PoolBounded(w.market, a, t)
    requires Flows(w.market, m', a, Accrue(w.market.pools[a], w.now), 0)
    ensures PoolBounded(m', a, NextTally(w, c, a, t))
  {
    FlowsKeepsBounds(w.market, m', w.now, a, t, 0, 0);
    CountIs(t, w.market.pools[a], m'.pools[a], m'.pools[a]);
  }

  lemma LiquidationCallFlows(m: Market, now: nat, c: Call, a: AssetId)
    requires c.LiquidateCall? && c.who.User? && a in m.pools
    requires Liquidate(m, now, c.who, c.target, c.pay, c.get, c.amount).1 != Panicked
    ensures var m' := Liquidate(m, now, c.who, c.target, c.pay, c.get, c.amount).0;
            && a in m'.pools
            && Flows(m, m', a, Accrue(m.pools[a], now), SeizedFrom(m, now, c, a) - PaidInto(m, now, c, a))
  {
    hide Flows, Accrue, ScaleOf, LiquidatePools, Released, Payment, Seizure;
    if c.pay in m.pools && c.get in m.pools && m.pools[c.get].canBeCollateral {
      var payPool, getPool := Accrue(m.pools[c.pay], now), Accrue(m.pools[c.get], now);
      LiquidateFlows(m, payPool, getPool, ScaleOf(m, now), c.who, c.target, c.pay, c.get, c.amount, a, Accrue(m.pools[a], now));
      ReleasedIs(m, now, c, a);
    } else {
      NoFlow(m, m, a, Accrue(m.pools[a], now));
    }
  }

  lemma ReleasedIs(m: Market, now: nat, c: Call, a: AssetId)
    requires c.LiquidateCall? && c.pay in m.pools && c.get in m.pools
    ensures var out := Liquidate(m, now, c.who, c.target, c.pay, c.get, c.amount).1;
            var payPool, getPool := Accrue(m.pools[c.pay], now), Accrue(m.pools[c.get], now);
            && (out != Done ==> SeizedFrom(m, now, c, a) == PaidInto(m, now, c, a) == 0)
            && (out == Done && Seizable(m, getPool, c.target, c.pay, c.get) ==>
                SeizedFrom(m, now, c, a) - PaidInto(m, now, c, a)
                == Released(out, a, c.get, Seizure(m, payPool, getPool, c.target, c.pay, c.get, c.amount),
                            c.pay, Payment(m, payPool, getPool, c.target, c.pay, c.get, c.amount)))
  {
  }

  /** What a liquidation leaves of the world: nothing when it traps. */
  lemma LiquidationApplied(w: World, c: Call, a: AssetId)
    requires c.LiquidateCall?
    ensures var (m', out) := Liquidate(w.market, w.now, c.who, c.target, c.pay, c.get, c.amount);
            && Apply(w, c).market == (if out == Panicked then w.market else m')
            && (out == Panicked ==> SeizedFrom(w.market, w.now, c, a) == PaidInto(w.market, w.now, c, a) == 0)
  {
  }

  lemma InvPoolOk(m: Market, now: nat, a: AssetId)
    requires Inv(m, now) && a in m.pools
    ensures PoolOk(m.pools[a], now)
  {
  }

  lemma CountedTally(w: World, c: Call, a: AssetId, t: Tally)
    requires a in w.market.pools && a in Apply(w, c).market.pools
    ensures NextTally(w, c, a, t)
            == Count(t, w.market.pools[a], Apply(w, c).market.pools[a]).(paid := t.paid + PaidInto(w.market, w.now, c, a),
                                                                         seized := t.seized + SeizedFrom(w.market, w.now, c, a))
  {
  }

  lemma LiquidationKeepsPoolBounded(w: World, c: Call, a: AssetId, t: Tally)
    requires Inv(w.market, w.now) && a in w.market.pools && PoolBounded(w.market, a, t)
    requires c.LiquidateCall? && c.who.User?
    ensures a in Apply(w, c).market.pools
    ensures PoolBounded(Apply(w, c).market, a, NextTally(w, c, a, t))
  {
    hide *;
    var m, now := w.market, w.now;
    InvPoolOk(m, now, a);
    LiquidationApplied(w, c, a);
    NoFlow(m, m, a, Accrue(m.pools[a], now));
    if Liquidate(m, now, c.who, c.target, c.pay, c.get, c.amount).1 != Panicked {
      LiquidationCallFlows(m, now, c, a);
    }
    FlowsKeepsBounds(m, Apply(w, c).market, now, a, t, PaidInto(m, now, c, a), SeizedFrom(m, now, c, a));
    CountedTally(w, c, a, t);
  }

  /** A pool that has just been initialised starts with nobody's claims: its id had no records. */
  lemma NewPoolBounded(w: World, id: AssetId, canBeCollateral: bool)
    requires WorldInv(w) && id !in w.market.pools
    ensures PoolBounded(InitPool(w.market, w.now, id, canBeCollateral), id, Untouched)
  {
    NoRecords(w.market.supplies, ScaleOf(w.market, w.now).supply, id);
    NoRecords(w.market.debts, ScaleOf(w.market, w.now).debt, id);
    InitPoolForgetsNothingIff(w.market, w.now, id, canBeCollateral);
  }

  lemma NoRecords(b: Book, limits: Limits, id: AssetId)
    requires BookOk(b, limits) && id !in limits
    ensures forall user :: (id, user) !in b.records
  {
  }

  lemma InitPoolKeepsPoolBounded(w: World, c: Call, a: AssetId, t: Tally)
    requires c.InitPoolCall? && a in w.market.pools && a != c.id && PoolBounded(w.market, a, t)
    ensures a in Apply(w, c).market.pools
    ensures PoolBounded(Apply(w, c).market, a, NextTally(w, c, a, t))
  {
    assert NextTally(w, c, a, t) == t;
  }

  lemma CallKeepsPoolBounded(w: World, c: Call, a: AssetId, t: Tally)
    requires WorldInv(w) && Legal(w, c) && a in w.market.pools && PoolBounded(w.market, a, t)
    ensures a in Apply(w, c).market.pools
    ensures PoolBounded(Apply(w, c).market, a, NextTally(w, c, a, t))
  {
    if c.InitPoolCall? {
      InitPoolKeepsPoolBounded(w, c, a, t);
    } else if c.LiquidateCall? {
      LiquidationKeepsPoolBounded(w, c, a, t);
    } else if OutsideLending(c) {
      OutsideKeepsPoolBounded(w, c, a, t);
    } else {
      LendingKeepsPoolBounded(w, c, a, t);
    }
  }

  /** One call keeps every pool within its history; a pool it creates starts one. */
  lemma StepKeepsTallies(w: World, c: Call, ts: Tallies)
    requires WorldInv(w) && Legal(w, c) && TalliesOk(w, ts)
    ensures TalliesOk(Apply(w, c), NextTallies(w, c, ts))
  {
    var w' := Apply(w, c);
    forall a | a in w'.market.pools ensures PoolBounded(w'.market, a, NextTallies(w, c, ts)[a]) {
      if a in w.market.pools {
        CallKeepsPoolBounded(w, c, a, ts[a]);
      } else {
        OnlyInitPoolCreates(w, c, a);
        NewPoolBounded(w, a, c.canBeCollateral);
      }
    }
  }

  lemma OnlyInitPoolCreates(w: World, c: Call, a: AssetId)
    requires WorldInv(w) && Legal(w, c) && a !in w.market.pools && a in Apply(w, c).market.pools
    ensures c.InitPoolCall? && c.id == a
  {
    if !c.InitPoolCall? {
      PoolsStay(w, c, a);
    }
  }

  /** Only `init_pool` creates pools, and none disappears. */
  lemma PoolsStay(w: World, c: Call, a: AssetId)
    requires WorldInv(w) && Legal(w, c) && !c.InitPoolCall?
    ensures a in Apply(w, c).market.pools <==> a in w.market.pools
  {
    if OutsideLending(c) {
      OutsideLeavesPallet(w, c);
    } else {
      LendingPoolsStay(w.market, w.now, c);
    }
  }

  lemma LendingPoolsStay(m: Market, now: nat, c: Call)
    requires PoolsOk(m, now) && !OutsideLending(c) && !c.InitPoolCall?
    ensures forall shares :: Apply(World(now, m, shares), c).market.pools.Keys == m.pools.Keys
  {
    hide PoolsOk, InScale, Supply, Withdraw, Borrow, Repay, Liquidate;
    match c
    case SupplyCall(who, asset, amount) => SupplyKeepsPools(m, now, who, asset, amount);
    case WithdrawCall(who, asset, amount) => WithdrawKeepsPools(m, now, who, asset, amount);
    case BorrowCall(who, asset, amount) => BorrowKeepsPools(m, now, who, asset, amount);
    case RepayCall(who, asset, amount) => RepayKeepsPools(m, now, who, asset, amount);
    case LiquidateCall(who, target, pay, get, amount) => LiquidateKeepsPools(m, now, who, target, pay, get, amount);
  }

  // ---------- runs ----------

  /** Over every legal run: the ledger is conserved, records, lists and indices are in order, shares
      add up, and every pool's drift and cash stay within its history. */
  lemma {:induction false} RunsAreSafe(w: World, calls: seq<Call>, ts: Tallies)
    requires WorldInv(w) && TalliesOk(w, ts) && LegalRun(w, calls)
    ensures WorldInv(Run(w, calls))
    ensures TalliesOk(Run(w, calls), RunTallies(w, calls, ts))
  {
    if calls != [] {
      var front, last := calls[..|calls| - 1], calls[|calls| - 1];
      RunsAreSafe(w, front, ts);
      StepKeepsInv(Run(w, front), last);
      StepKeepsTallies(Run(w, front), last, RunTallies(w, front, ts));
    }
  }

  lemma GenesisIsSafe(owner: AccountId, assets: seq<GenesisAsset>, pools: seq<AssetId>, now: nat)
    ensures var w := GenesisWorld(owner, assets, pools, now);
            WorldInv(w) && TalliesOk(w, map a | a in w.market.pools :: Untouched)
  {
    var w := GenesisWorld(owner, assets, pools, now);
    EmptyConserved();
    GenesisConserves(Empty, owner, assets);
    GenesisInv(Genesis(Empty, owner, assets), now, pools);
    NoSharesAddUp();
    forall a | a in w.market.pools ensures PoolBounded(w.market, a, Untouched) {
      assert ExposuresOf(w.market.supplies, a) == map[];
      assert ExposuresOf(w.market.debts, a) == map[];
    }
  }

  /** So from genesis on, every reachable state is safe. */
  lemma ReachableStatesAreSafe(owner: AccountId, assets: seq<GenesisAsset>, pools: seq<AssetId>, now: nat, calls: seq<Call>)
    requires LegalRun(GenesisWorld(owner, assets, pools, now), calls)
    ensures var w := GenesisWorld(owner, assets, pools, now);
            && WorldInv(Run(w, calls))
            && TalliesOk(Run(w, calls), RunTallies(w, calls, map a | a in w.market.pools :: Untouched))
  {
    var w := GenesisWorld(owner, assets, pools, now);
    GenesisIsSafe(owner, assets, pools, now);
    RunsAreSafe(w, calls, map a | a in w.market.pools :: Untouched);
  }

  /** In every reachable state credits and debits are in range: no account holds more than the total
      supply, which fits its integer type, and unissued ids have no holders. */
  lemma ReachableBalancesInRange(owner: AccountId, assets: seq<GenesisAsset>, pools: seq<AssetId>, now: nat, calls: seq<Call>, id: AssetId, who: AccountId)
    requires LegalRun(GenesisWorld(owner, assets, pools, now), calls)
    ensures var l := Run(GenesisWorld(owner, assets, pools, now), calls).market.ledger;
            && Balance(l, id, who) <= TotalSupply(l, id) <= U128_MAX
            && (l.nextAssetId <= id ==> Balance(l, id, who) == TotalSupply(l, id) == 0)
  {
    ReachableStatesAreSafe(owner, assets, pools, now, calls);
    var l := Run(GenesisWorld(owner, assets, pools, now), calls).market.ledger;
    HoldingWithinSupply(l, id, who);
    assert Held(l, id) == TotalSupply(l, id);
  }

  // ---------- what the bounds give a caller ----------

  /** The run's liquidations have seized no more of the asset than they paid in. */
  ghost predicate PaidIn(w: World, calls: seq<Call>, ts: Tallies, a: AssetId) {
    a in RunTallies(w, calls, ts) ==> RunTallies(w, calls, ts)[a].seized <= RunTallies(w, calls, ts)[a].paid
  }

  /** From genesis on, while liquidations have seized no more of an asset than they paid in, a positive
      amount of it that passes the liquidity check never fails for lack of funds. */
  lemma PayoutsAreFunded(owner: AccountId, assets: seq<GenesisAsset>, pools: seq<AssetId>, now: nat, calls: seq<Call>, user: AccountId, asset: AssetId, amount: nat)
    requires LegalRun(GenesisWorld(owner, assets, pools, now), calls)
    requires var w0 := GenesisWorld(owner, assets, pools, now);
             PaidIn(w0, calls, map a | a in w0.market.pools :: Untouched, asset)
    requires user.User? && 0 < amount
    ensures var w := Run(GenesisWorld(owner, assets, pools, now), calls);
            && Borrow(w.market, w.now, user, asset, amount).1 != Failed(TransferFailed)
            && Withdraw(w.market, w.now, user, asset, amount).1 != Failed(TransferFailed)
  {
    var w0 := GenesisWorld(owner, assets, pools, now);
    var w, ts := Run(w0, calls), map a | a in w0.market.pools :: Untouched;
    ReachableStatesAreSafe(owner, assets, pools, now, calls);
    if asset in w.market.pools {
      BorrowIsFunded(w.market, w.now, user, asset, amount, RunTallies(w0, calls, ts)[asset]);
      WithdrawIsFunded(w.market, w.now, user, asset, amount, RunTallies(w0, calls, ts)[asset]);
    }
  }

  /** No call of the run succeeds in seizing the asset. */
  ghost predicate Unseized(w: World, calls: seq<Call>, a: AssetId) {
    calls == [] ||
    (var front, last := calls[..|calls| - 1], calls[|calls| - 1];
     Unseized(w, front, a) && SeizedFrom(Run(w, front).market, Run(w, front).now, last, a) == 0)
  }

  /** In particular while none has seized it: failed liquidations of the asset, and those that pay in it,
      do not matter. */
  lemma {:induction false} UnseizedIsPaidIn(w: World, calls: seq<Call>, ts: Tallies, a: AssetId)
    requires Unseized(w, calls, a) && (a in ts ==> ts[a].seized == 0)
    ensures a in RunTallies(w, calls, ts) ==> RunTallies(w, calls, ts)[a].seized == 0
    ensures PaidIn(w, calls, ts, a)
  {
    if calls != [] {
      UnseizedIsPaidIn(w, calls[..|calls| - 1], ts, a);
    }
  }

  /** From genesis on, while a pool's debt index is still one, no borrower owes more than the accrued
      pool records and no repayment traps. */
  lemma RepaymentsAreCovered(owner: AccountId, assets: seq<GenesisAsset>, pools: seq<AssetId>, now: nat, calls: seq<Call>, user: AccountId, asset: AssetId, amount: nat)
    requires LegalRun(GenesisWorld(owner, assets, pools, now), calls)
    requires var m := Run(GenesisWorld(owner, assets, pools, now), calls).market;
             asset in m.pools && m.pools[asset].totalDebtIndex == D
    ensures var w := Run(GenesisWorld(owner, assets, pools, now), calls);
            && DebtOwed(w.market, w.now, asset, user) <= Accrue(w.market.pools[asset], w.now).debt
            && Repay(w.market, w.now, user, asset, amount).1 != Panicked
  {
    var w0 := GenesisWorld(owner, assets, pools, now);
    var w, ts := Run(w0, calls), map a | a in w0.market.pools :: Untouched;
    ReachableStatesAreSafe(owner, assets, pools, now, calls);
    RepaymentsCoveredAtIndexOne(w.market, w.now, asset, user, amount, RunTallies(w0, calls, ts)[asset]);
  }

  // ---------- share value over runs ----------

  /** Calls that may not dilute pool `a`: an exact-input swap that pays into the pool is covered by
      its payer, exact-output swaps with it and additions to it are harmless, and the inherent asset stays. Everything else is free. */
  predicate Fair(w: World, c: Call, a: AssetId) {
    var l := w.market.ledger;
    match c
    case SwapInCall(who, _, assetIn, assetOut, amount) =>
      a == FirstPool(l, assetIn, assetOut) ==> amount <= Balance(l, assetIn, who)
    case SwapOutCall(who, recipient, assetIn, assetOut, amount) =>
      HarmlessSwap(l, who, recipient, assetIn, assetOut, amount, a)
    case AddLiquidityCall(who, asset, inherent, paired) =>
      asset == a ==> HarmlessAddition(l, w.shares, who, asset, inherent, paired)
    case SetInherentCall(id) => id == l.inherentAsset
    case _ => true
  }

  /** A world's pool `a` is worth no less per share after a fair call. */
  lemma FairCallKeepsValue(w: World, c: Call, a: AssetId)
    requires WorldInv(w) && Legal(w, c) && Fair(w, c, a)
    requires a != w.market.ledger.inherentAsset && Sound(w.market.ledger, w.shares, a)
    ensures var w' := Apply(w, c);
            KeepsValue(w.market.ledger, w.shares, w'.market.ledger, w'.shares, a)
  {
    var l, sh, w' := w.market.ledger, w.shares, Apply(w, c);
    var l' := w'.market.ledger;
    match c
    case SwapInCall(who, recipient, assetIn, assetOut, amount) =>
      FundedSwapKeepsProducts(l, who, recipient, assetIn, assetOut, amount, a);
      ProductKeepsShareValue(l, sh, l', a);
    case SwapOutCall(who, recipient, assetIn, assetOut, amount) =>
      HarmlessSwapKeepsProducts(l, who, recipient, assetIn, assetOut, amount, a);
      ProductKeepsShareValue(l, sh, l', a);
    case AddLiquidityCall(who, asset, inherent, paired) =>
      FairAdditionStep(w, who, asset, inherent, paired, a);
    case RemoveLiquidityCall(who, asset, liquidity) =>
      RemovalStep(w, who, asset, liquidity, a);
    case _ =>
      OtherCallsOnlyAdd(w, c, a);
      GrowthKeepsValue(l, sh, l', w'.shares, a);
  }

  lemma FairAdditionStep(w: World, who: AccountId, asset: AssetId, inherent: nat, paired: nat, a: AssetId)
    requires who.User? && a != w.market.ledger.inherentAsset && Sound(w.market.ledger, w.shares, a)
    requires asset == a ==> HarmlessAddition(w.market.ledger, w.shares, who, asset, inherent, paired)
    ensures var w' := Apply(w, AddLiquidityCall(who, asset, inherent, paired));
            KeepsValue(w.market.ledger, w.shares, w'.market.ledger, w'.shares, a)
  {
    var l, sh := w.market.ledger, w.shares;
    GrowthKeepsValue(l, sh, l, sh, a);
    if asset == a {
      AdditionKeepsValueIff(l, sh, who, asset, inherent, paired);
    } else {
      AdditionElsewhere(l, sh, who, asset, inherent, paired, a);
    }
  }

  lemma RemovalStep(w: World, who: AccountId, asset: AssetId, liquidity: nat, a: AssetId)
    requires who.User? && a != w.market.ledger.inherentAsset && Sound(w.market.ledger, w.shares, a)
    requires SharesAddUp(w.shares)
    ensures var w' := Apply(w, RemoveLiquidityCall(who, asset, liquidity));
            KeepsValue(w.market.ledger, w.shares, w'.market.ledger, w'.shares, a)
  {
    var l, sh := w.market.ledger, w.shares;
    GrowthKeepsValue(l, sh, l, sh, a);
    if asset != a {
      RemovalElsewhere(l, sh, who, asset, liquidity, a);
    } else if Swap.RemoveLiquidity(l, sh, who, asset, liquidity).1 {
      RemovalKeepsValue(l, sh, who, asset, liquidity);
    }
  }

  lemma OtherCallsOnlyAdd(w: World, c: Call, a: AssetId)
    requires WorldInv(w) && Legal(w, c) && Fair(w, c, a)
    requires !c.SwapInCall? && !c.SwapOutCall? && !c.AddLiquidityCall? && !c.RemoveLiquidityCall?
    ensures var l, l' := w.market.ledger, Apply(w, c).market.ledger;
            && l'.inherentAsset == l.inherentAsset
            && Apply(w, c).shares == w.shares
            && Swap.InherentReserve(l, a) <= Swap.InherentReserve(l', a)
            && Swap.PairedReserve(l, a) <= Swap.PairedReserve(l', a)
  {
    var l := w.market.ledger;
    if !OutsideLending(c) {
      LendingStepPays(w, c);
    } else if c.TransferCall? {
      TransferPaysSafely(l, c.who, c.id, c.to, c.amount);
    }
  }

  predicate FairRun(w: World, calls: seq<Call>, a: AssetId) {
    calls == [] || (FairRun(w, calls[..|calls| - 1], a) && Fair(Run(w, calls[..|calls| - 1]), calls[|calls| - 1], a))
  }

  /** The pool has liquidity before every call of the run. */
  predicate Liquid(w: World, calls: seq<Call>, a: AssetId) {
    && Swap.TotalShares(Run(w, calls).shares, a) > 0
    && (calls == [] || Liquid(w, calls[..|calls| - 1], a))
  }

  lemma {:induction false} LiquidFromTheStart(w: World, calls: seq<Call>, a: AssetId)
    requires Liquid(w, calls, a)
    ensures Swap.TotalShares(w.shares, a) > 0
  {
    if calls != [] {
      LiquidFromTheStart(w, calls[..|calls| - 1], a);
    }
  }

  /** A pool with liquidity holds some of both assets after every fair run. */
  lemma {:induction false} FairRunsStaySound(w: World, calls: seq<Call>, a: AssetId)
    requires WorldInv(w) && LegalRun(w, calls) && FairRun(w, calls, a)
    requires a != w.market.ledger.inherentAsset && Sound(w.market.ledger, w.shares, a)
    ensures var w' := Run(w, calls);
            && WorldInv(w')
            && w'.market.ledger.inherentAsset == w.market.ledger.inherentAsset
            && Sound(w'.market.ledger, w'.shares, a)
  {
    if calls != [] {
      var front, last := calls[..|calls| - 1], calls[|calls| - 1];
      FairRunsStaySound(w, front, a);
      StepKeepsInv(Run(w, front), last);
      FairCallKeepsValue(Run(w, front), last, a);
    }
  }

  /** So from genesis on, the division by the inherent reserve in a later addition never traps: after
      a fair run every addition to the pool is done. */
  lemma AdditionsAreDefined(owner: AccountId, assets: seq<GenesisAsset>, pools: seq<AssetId>, now: nat, calls: seq<Call>, a: AssetId, who: AccountId, inherent: nat, paired: nat)
    requires LegalRun(GenesisWorld(owner, assets, pools, now), calls) && FairRun(GenesisWorld(owner, assets, pools, now), calls, a)
    requires a != GenesisWorld(owner, assets, pools, now).market.ledger.inherentAsset
    ensures var w := Run(GenesisWorld(owner, assets, pools, now), calls);
            Swap.AddLiquidity(w.market.ledger, w.shares, who, a, inherent, paired).1
  {
    GenesisIsSafe(owner, assets, pools, now);
    FairRunsStaySound(GenesisWorld(owner, assets, pools, now), calls, a);
  }

  /** While a pool has liquidity, inherent reserve * paired reserve / total^2 never decreases over a
      fair run of calls of all three pallets, and neither reserve is ever emptied. */
  lemma {:induction false} ShareValueNeverFalls(w: World, calls: seq<Call>, a: AssetId)
    requires WorldInv(w) && LegalRun(w, calls) && FairRun(w, calls, a) && Liquid(w, calls, a)
    requires a != w.market.ledger.inherentAsset && Sound(w.market.ledger, w.shares, a)
    ensures var w' := Run(w, calls);
            && WorldInv(w')
            && KeepsValue(w.market.ledger, w.shares, w'.market.ledger, w'.shares, a)
            && Swap.InherentReserve(w'.market.ledger, a) > 0 && Swap.PairedReserve(w'.market.ledger, a) > 0
  {
    if calls == [] {
      GrowthKeepsValue(w.market.ledger, w.shares, w.market.ledger, w.shares, a);
    } else {
      var front, last := calls[..|calls| - 1], calls[|calls| - 1];
      ShareValueNeverFalls(w, front, a);
      var w1 := Run(w, front);
      StepKeepsInv(w1, last);
      FairCallKeepsValue(w1, last, a);
      LiquidFromTheStart(w, calls, a);
      assert Liquid(w, front, a);
      ValueTwice(w, w1, Apply(w1, last), a);
    }
  }

  lemma ValueTwice(w: World, w1: World, w2: World, a: AssetId)
    requires Swap.TotalShares(w.shares, a) > 0 && Swap.TotalShares(w1.shares, a) > 0 && Swap.TotalShares(w2.shares, a) > 0
    requires KeepsValue(w.market.ledger, w.shares, w1.market.ledger, w1.shares, a)
    requires KeepsValue(w1.market.ledger, w1.shares, w2.market.ledger, w2.shares, a)
    ensures KeepsValue(w.market.ledger, w.shares, w2.market.ledger, w2.shares, a)
  {
    var l, l1, l2 := w.market.ledger, w1.market.ledger, w2.market.ledger;
    NotWorseTransitive(Swap.InherentReserve(l, a), Swap.PairedReserve(l, a), Swap.TotalShares(w.shares, a),
                       Swap.InherentReserve(l1, a), Swap.PairedReserve(l1, a), Swap.TotalShares(w1.shares, a),
                       Swap.InherentReserve(l2, a), Swap.PairedReserve(l2, a), Swap.TotalShares(w2.shares, a));
  }
}
