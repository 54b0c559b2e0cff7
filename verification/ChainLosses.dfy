// Over whole runs, the other side of the drift: a pool's recorded totals exceed what its users may
// claim by no more than the floors of the lending calls on it so far and what liquidations moved.

module ChainLosses {
  import opened Identifiers
  import opened FixedPoint
  import opened AssetLedger
  import opened InterestModel
  import opened UserBooks
  import opened LendingMarket
  import opened LendingSteps
  import opened LendingInvariant
  import opened LendingDrift
  import opened LendingLosses
  import opened ChainState
  import opened ChainRuns

  /** The lending calls that work on pool `a`. */
  predicate Touches(c: Call, a: AssetId) {
    match c
    case SupplyCall(_, asset, _) => asset == a
    case WithdrawCall(_, asset, _) => asset == a
    case BorrowCall(_, asset, _) => asset == a
    case RepayCall(_, asset, _) => asset == a
    case LiquidateCall(_, _, pay, get, _) => pay == a || get == a
    case _ => false
  }

  /** Calls that worked on pool `a` over a run, and the claims they met. */
  ghost function RunLosses(w: World, calls: seq<Call>, a: AssetId): Losses {
    if calls == [] then Losses(0, 0.0, 0.0)
    else
      var front, last := calls[..|calls| - 1], calls[|calls| - 1];
      StepLosses(RunLosses(w, front, a), Run(w, front), last, a)
  }

  ghost function StepLosses(s: Losses, w: World, c: Call, a: AssetId): Losses {
    if Touches(c, a) then NextLosses(s, w.market, w.now, a) else s
  }

  // ---------- calls that do not work on the pool ----------

  /** Such a call leaves the pool, the claims on it and its history. */
  lemma CallElsewhere(w: World, c: Call, a: AssetId, t: Tally)
    requires WorldInv(w) && Legal(w, c) && a in w.market.pools && !Touches(c, a)
    ensures SameFor(w.market, Apply(w, c).market, a)
    ensures NextTally(w, c, a, t) == t
  {
    if OutsideLending(c) || c.InitPoolCall? {
      OutsideElsewhere(w, c, a);
    } else {
      LendingElsewhere(w, c, a);
    }
  }

  lemma OutsideElsewhere(w: World, c: Call, a: AssetId)
    requires WorldInv(w) && Legal(w, c) && a in w.market.pools && (OutsideLending(c) || c.InitPoolCall?)
    ensures SameFor(w.market, Apply(w, c).market, a)
  {
    if OutsideLending(c) {
      OutsideLeavesPallet(w, c);
    }
  }

  lemma LendingElsewhere(w: World, c: Call, a: AssetId)
    requires WorldInv(w) && a in w.market.pools && !Touches(c, a) && !OutsideLending(c) && !c.InitPoolCall?
    ensures SameFor(w.market, Apply(w, c).market, a)
  {
    hide SameFor, Inv, Supply, Withdraw, Borrow, Repay, Liquidate;
    var m, now := w.market, w.now;
    NothingMoved(m, a);
    match c
    case SupplyCall(who, asset, amount) =>
      SupplyElsewhere(m, now, who, asset, amount, a);
    case WithdrawCall(who, asset, amount) =>
      WithdrawElsewhere(m, now, who, asset, amount, a);
    case BorrowCall(who, asset, amount) =>
      BorrowElsewhere(m, now, who, asset, amount, a);
    case RepayCall(who, asset, amount) =>
      if Repay(m, now, who, asset, amount).1 != Panicked {
        RepayElsewhere(m, now, who, asset, amount, a);
      }
    case LiquidateCall(who, target, pay, get, amount) =>
      LiquidateElsewhere(m, now, who, target, pay, get, amount, a);
  }

  lemma NothingMoved(m: Market, a: AssetId)
    requires a in m.pools
    ensures SameFor(m, m, a)
  {
  }

  // ---------- calls that work on the pool ----------

  lemma UnliquidatedTally(w: World, c: Call, a: AssetId, t: Tally)
    requires a in w.market.pools && a in Apply(w, c).market.pools && !c.LiquidateCall?
    ensures NextTally(w, c, a, t) == Count(t, w.market.pools[a], Apply(w, c).market.pools[a]).(paid := t.paid, seized := t.seized)
  {
  }

  lemma SupplyCallStaysBacked(w: World, c: Call, a: AssetId, s: Losses, t: Tally)
    requires Inv(w.market, w.now) && c.SupplyCall? && a in w.market.pools && PoolBacked(w.market, a, s, t)
    ensures a in Apply(w, c).market.pools
    ensures PoolBacked(Apply(w, c).market, a, NextLosses(s, w.market, w.now, a), NextTally(w, c, a, t))
  {
    var m, now := w.market, w.now;
    if c.asset !in m.pools || Supply(m, now, c.who, c.asset, c.amount).1 == Panicked {
      UntouchedStaysBacked(m, m, now, a, s, t);
    } else {
      SupplyStaysBacked(m, now, c.who, c.asset, c.amount, a, s, t);
    }
    UnliquidatedTally(w, c, a, t);
  }

  lemma WithdrawCallStaysBacked(w: World, c: Call, a: AssetId, s: Losses, t: Tally)
    requires Inv(w.market, w.now) && c.WithdrawCall? && a in w.market.pools && PoolBacked(w.market, a, s, t)
    ensures a in Apply(w, c).market.pools
    ensures PoolBacked(Apply(w, c).market, a, NextLosses(s, w.market, w.now, a), NextTally(w, c, a, t))
  {
    var m, now := w.market, w.now;
    if c.asset !in m.pools || Withdraw(m, now, c.who, c.asset, c.amount).1 == Panicked {
      UntouchedStaysBacked(m, m, now, a, s, t);
    } else {
      WithdrawStaysBacked(m, now, c.who, c.asset, c.amount, a, s, t);
    }
    UnliquidatedTally(w, c, a, t);
  }

  lemma BorrowCallStaysBacked(w: World, c: Call, a: AssetId, s: Losses, t: Tally)
    requires Inv(w.market, w.now) && c.BorrowCall? && a in w.market.pools && PoolBacked(w.market, a, s, t)
    ensures a in Apply(w, c).market.pools
    ensures PoolBacked(Apply(w, c).market, a, NextLosses(s, w.market, w.now, a), NextTally(w, c, a, t))
  {
    var m, now := w.market, w.now;
    if c.asset !in m.pools || Borrow(m, now, c.who, c.asset, c.amount).1 == Panicked {
      UntouchedStaysBacked(m, m, now, a, s, t);
    } else {
      BorrowStaysBacked(m, now, c.who, c.asset, c.amount, a, s, t);
    }
    UnliquidatedTally(w, c, a, t);
  }

  lemma RepayCallStaysBacked(w: World, c: Call, a: AssetId, s: Losses, t: Tally)
    requires Inv(w.market, w.now) && c.RepayCall? && a in w.market.pools && PoolBacked(w.market, a, s, t)
    ensures a in Apply(w, c).market.pools
    ensures PoolBacked(Apply(w, c).market, a, NextLosses(s, w.market, w.now, a), NextTally(w, c, a, t))
  {
    var m, now := w.market, w.now;
    if c.asset !in m.pools || Repay(m, now, c.who, c.asset, c.amount).1 == Panicked {
      UntouchedStaysBacked(m, m, now, a, s, t);
    } else {
      RepayStaysBacked(m, now, c.who, c.asset, c.amount, a, s, t);
    }
    UnliquidatedTally(w, c, a, t);
  }

  lemma LendingStaysBacked(w: World, c: Call, a: AssetId, s: Losses, t: Tally)
    requires Inv(w.market, w.now) && a in w.market.pools && PoolBacked(w.market, a, s, t)
    requires c.SupplyCall? || c.WithdrawCall? || c.BorrowCall? || c.RepayCall?
    ensures a in Apply(w, c).market.pools
    ensures PoolBacked(Apply(w, c).market, a, NextLosses(s, w.market, w.now, a), NextTally(w, c, a, t))
  {
    match c
    case SupplyCall(_, _, _) => SupplyCallStaysBacked(w, c, a, s, t);
    case WithdrawCall(_, _, _) => WithdrawCallStaysBacked(w, c, a, s, t);
    case BorrowCall(_, _, _) => BorrowCallStaysBacked(w, c, a, s, t);
    case RepayCall(_, _, _) => RepayCallStaysBacked(w, c, a, s, t);
  }

  lemma AmountsOf(m: Market, now: nat, c: Call) returns (seized: nat, paid: nat)
    requires Inv(m, now) && c.LiquidateCall?
    ensures Amounts(m, now, c.who, c.target, c.pay, c.get, c.amount, seized, paid)
  {
    seized, paid := 0, 0;
    LiquidateEffect(m, now, c.who, c.target, c.pay, c.get, c.amount);
    if Liquidate(m, now, c.who, c.target, c.pay, c.get, c.amount).1 == Done {
      seized := SeizureOf(m, now, c.target, c.pay, c.get, c.amount);
      paid := PaymentOf(m, now, c.target, c.pay, c.get, c.amount);
    }
  }

  /** The amounts a liquidation moves past the totals are those its history counts. */
  lemma CountedAmounts(m: Market, now: nat, c: Call, a: AssetId, seized: nat, paid: nat)
    requires c.LiquidateCall? && Amounts(m, now, c.who, c.target, c.pay, c.get, c.amount, seized, paid)
    ensures var out := Liquidate(m, now, c.who, c.target, c.pay, c.get, c.amount).1;
            && SeizedFrom(m, now, c, a) == Booked(out, seized, c.get, a) == -Seen(Taken(out, seized), c.get, a)
            && PaidInto(m, now, c, a) == Booked(out, paid, c.pay, a) == -Seen(Taken(out, paid), c.pay, a)
  {
  }

  lemma LiquidationSides(m: Market, now: nat, c: Call, a: AssetId)
    requires Inv(m, now) && c.LiquidateCall? && a in m.pools
    ensures var m' := Liquidate(m, now, c.who, c.target, c.pay, c.get, c.amount).0;
            SidesFollowed(m, m', now, a, 0 - SeizedFrom(m, now, c, a), 0 - PaidInto(m, now, c, a))
  {
    var seized, paid := AmountsOf(m, now, c);
    CountedAmounts(m, now, c, a, seized, paid);
    LiquidateSides(m, now, c.who, c.target, c.pay, c.get, c.amount, seized, paid, a);
  }

  lemma LiquidationPool(m: Market, now: nat, c: Call, a: AssetId)
    requires Inv(m, now) && c.LiquidateCall? && a in m.pools
    ensures var m' := Liquidate(m, now, c.who, c.target, c.pay, c.get, c.amount).0;
            && a in m'.pools
            && PoolFollowed(m.pools[a], Accrue(m.pools[a], now), m'.pools[a], 0 - SeizedFrom(m, now, c, a), 0 - PaidInto(m, now, c, a),
                            SeizedFrom(m, now, c, a), PaidInto(m, now, c, a))
  {
    if c.pay in m.pools && c.get in m.pools && m.pools[c.get].canBeCollateral {
      var seized, paid := AmountsOf(m, now, c);
      CountedAmounts(m, now, c, a, seized, paid);
      LiquidatePool(m, now, c.who, c.target, c.pay, c.get, c.amount, seized, paid, a);
    }
  }

  lemma NothingFollowed(m: Market, now: nat, a: AssetId)
    requires a in m.pools
    ensures SidesFollowed(m, m, now, a, 0, 0)
  {
    StillFollowed(m.supplies, m.supplies, a, EffectiveSupplyIndex(m.pools[a], now));
    StillFollowed(m.debts, m.debts, a, EffectiveDebtIndex(m.pools[a], now));
  }

  lemma KeptPoolFollowed(p: Pool, r: Pool)
    ensures PoolFollowed(p, r, p, 0, 0, 0, 0)
  {
  }

  lemma LiquidationFollowed(w: World, c: Call, a: AssetId)
    requires Inv(w.market, w.now) && c.LiquidateCall? && a in w.market.pools
    ensures var m', seized, paid := Apply(w, c).market, SeizedFrom(w.market, w.now, c, a), PaidInto(w.market, w.now, c, a);
            && a in m'.pools
            && SidesFollowed(w.market, m', w.now, a, 0 - seized, 0 - paid)
            && PoolFollowed(w.market.pools[a], Accrue(w.market.pools[a], w.now), m'.pools[a], 0 - seized, 0 - paid, seized, paid)
  {
    hide *;
    LiquidationApplied(w, c, a);
    NothingFollowed(w.market, w.now, a);
    KeptPoolFollowed(w.market.pools[a], Accrue(w.market.pools[a], w.now));
    LiquidationSides(w.market, w.now, c, a);
    LiquidationPool(w.market, w.now, c, a);
  }

  lemma LiquidationCallStaysBacked(w: World, c: Call, a: AssetId, s: Losses, t: Tally)
    requires Inv(w.market, w.now) && c.LiquidateCall? && a in w.market.pools && PoolBacked(w.market, a, s, t)
    ensures a in Apply(w, c).market.pools
    ensures PoolBacked(Apply(w, c).market, a, NextLosses(s, w.market, w.now, a), NextTally(w, c, a, t))
  {
    hide *;
    var m, now := w.market, w.now;
    InvPoolOk(m, now, a);
    LiquidationFollowed(w, c, a);
    FollowedStaysBacked(m, Apply(w, c).market, now, a, 0 - SeizedFrom(m, now, c, a), 0 - PaidInto(m, now, c, a),
                        SeizedFrom(m, now, c, a), PaidInto(m, now, c, a), s, t);
    CountedTally(w, c, a, t);
  }

  lemma CallStaysBacked(w: World, c: Call, a: AssetId, s: Losses, t: Tally)
    requires WorldInv(w) && Legal(w, c) && a in w.market.pools && PoolBacked(w.market, a, s, t)
    ensures a in Apply(w, c).market.pools
    ensures PoolBacked(Apply(w, c).market, a, StepLosses(s, w, c, a), NextTally(w, c, a, t))
  {
    if !Touches(c, a) {
      CallElsewhere(w, c, a, t);
      SameStaysBacked(w.market, Apply(w, c).market, a, s, t);
    } else if c.LiquidateCall? {
      LiquidationCallStaysBacked(w, c, a, s, t);
    } else {
      LendingStaysBacked(w, c, a, s, t);
    }
  }

  /** A pool without supply or debt is backed by anything. */
  lemma EmptyPoolBacked(m: Market, a: AssetId, s: Losses)
    requires a in m.pools && m.pools[a].supply == m.pools[a].debt == 0
    requires 0.0 <= s.supplyPeak && 0.0 <= s.debtPeak
    ensures PoolBacked(m, a, s, Untouched)
  {
    ClaimsNonNegative(m.supplies, a, m.pools[a].totalSupplyIndex);
    ClaimsNonNegative(m.debts, a, m.pools[a].totalDebtIndex);
    SlackNonNegative(s.calls, s.supplyPeak);
    SlackNonNegative(s.calls, s.debtPeak);
  }

  lemma SlackNonNegative(n: nat, peak: real)
    requires 0.0 <= peak
    ensures 0.0 <= Slack(n, peak, 0, 1.0)
  {
    RatioOrder(0.0, peak);
    RealLe(0.0, n as real, Loss(peak));
  }

  lemma {:induction false} PeaksNonNegative(w: World, calls: seq<Call>, a: AssetId)
    ensures 0.0 <= RunLosses(w, calls, a).supplyPeak && 0.0 <= RunLosses(w, calls, a).debtPeak
    ensures RunLosses(w, calls, a).calls == TouchingCalls(calls, a)
  {
    if calls != [] {
      PeaksNonNegative(w, calls[..|calls| - 1], a);
    }
  }

  /** How many of the calls work on pool `a`. */
  function TouchingCalls(calls: seq<Call>, a: AssetId): nat {
    if calls == [] then 0
    else TouchingCalls(calls[..|calls| - 1], a) + (if Touches(calls[|calls| - 1], a) then 1 else 0)
  }

  /** Every pool's totals exceed the claims by at most what its history allows. */
  ghost predicate AllBacked(w0: World, calls: seq<Call>, ts: Tallies) {
    var w := Run(w0, calls);
    forall a | a in w.market.pools :: a in ts && PoolBacked(w.market, a, RunLosses(w0, calls, a), ts[a])
  }

  lemma {:induction false} RunsStayBacked(w0: World, calls: seq<Call>, ts: Tallies)
    requires WorldInv(w0) && LegalRun(w0, calls) && AllBacked(w0, [], ts)
    ensures WorldInv(Run(w0, calls)) && AllBacked(w0, calls, RunTallies(w0, calls, ts))
  {
    if calls != [] {
      var front, last := calls[..|calls| - 1], calls[|calls| - 1];
      RunsStayBacked(w0, front, ts);
      StepKeepsInv(Run(w0, front), last);
      StepStaysBacked(w0, front, last, RunTallies(w0, front, ts));
      assert front + [last] == calls;
    }
  }

  lemma StepStaysBacked(w0: World, front: seq<Call>, c: Call, ts: Tallies)
    requires var w := Run(w0, front);
             WorldInv(w) && Legal(w, c) && AllBacked(w0, front, ts)
    ensures AllBacked(w0, front + [c], NextTallies(Run(w0, front), c, ts))
  {
    var w := Run(w0, front);
    var w' := Apply(w, c);
    RunOneMore(w0, front, c);
    assert (front + [c])[..|front|] == front;
    forall a | a in w'.market.pools
      ensures PoolBacked(w'.market, a, RunLosses(w0, front + [c], a), NextTallies(w, c, ts)[a])
    {
      if a in w.market.pools {
        CallStaysBacked(w, c, a, RunLosses(w0, front, a), ts[a]);
      } else {
        OnlyInitPoolCreates(w, c, a);
        PeaksNonNegative(w0, front + [c], a);
        EmptyPoolBacked(w'.market, a, RunLosses(w0, front + [c], a));
      }
    }
  }

  lemma BackedMeans(m: Market, a: AssetId, s: Losses, t: Tally)
    requires a in m.pools && PoolBacked(m, a, s, t)
    ensures m.pools[a].supply as real - Claims(m.supplies, a, m.pools[a].totalSupplyIndex)
            <= (s.calls as real * (1.0 + 2.0 * (s.supplyPeak / D as real)) + t.seized as real) * t.supplyGrowth
    ensures m.pools[a].debt as real - Claims(m.debts, a, m.pools[a].totalDebtIndex)
            <= (s.calls as real * (1.0 + 2.0 * (s.debtPeak / D as real)) + t.paid as real) * t.debtGrowth
  {
  }

  lemma ReachableIsBacked(owner: AccountId, assets: seq<GenesisAsset>, pools: seq<AssetId>, now: nat, calls: seq<Call>, a: AssetId)
    requires LegalRun(GenesisWorld(owner, assets, pools, now), calls)
    requires a in Run(GenesisWorld(owner, assets, pools, now), calls).market.pools
    ensures var w0 := GenesisWorld(owner, assets, pools, now);
            var ts := RunTallies(w0, calls, map i | i in w0.market.pools :: Untouched);
            && a in ts
            && PoolBacked(Run(w0, calls).market, a, RunLosses(w0, calls, a), ts[a])
  {
    var w0 := GenesisWorld(owner, assets, pools, now);
    GenesisIsSafe(owner, assets, pools, now);
    GenesisBacked(owner, assets, pools, now);
    RunsStayBacked(w0, calls, map i | i in w0.market.pools :: Untouched);
  }

  /** From genesis on, in every reachable state: a pool's recorded supply exceeds what its suppliers may
      claim by at most (n * (1 + 2 P / D) + seized) * M, after n lending calls on the pool that met claims
      of at most P, with liquidations having seized that much and M the product of the pool's multipliers; and its
      recorded debt exceeds what its borrowers owe by the same with what liquidations paid. */
  lemma TotalsStayNearClaims(owner: AccountId, assets: seq<GenesisAsset>, pools: seq<AssetId>, now: nat, calls: seq<Call>, a: AssetId)
    requires LegalRun(GenesisWorld(owner, assets, pools, now), calls)
    requires a in Run(GenesisWorld(owner, assets, pools, now), calls).market.pools
    ensures var w0 := GenesisWorld(owner, assets, pools, now);
            var m, ts, s := Run(w0, calls).market, RunTallies(w0, calls, map i | i in w0.market.pools :: Untouched), RunLosses(w0, calls, a);
            && a in ts && s.calls == TouchingCalls(calls, a)
            && m.pools[a].supply as real - Claims(m.supplies, a, m.pools[a].totalSupplyIndex)
               <= (s.calls as real * (1.0 + 2.0 * (s.supplyPeak / D as real)) + ts[a].seized as real) * ts[a].supplyGrowth
            && m.pools[a].debt as real - Claims(m.debts, a, m.pools[a].totalDebtIndex)
               <= (s.calls as real * (1.0 + 2.0 * (s.debtPeak / D as real)) + ts[a].paid as real) * ts[a].debtGrowth
  {
    hide *;
    var w0 := GenesisWorld(owner, assets, pools, now);
    var ts := RunTallies(w0, calls, map i | i in w0.market.pools :: Untouched);
    ReachableIsBacked(owner, assets, pools, now, calls, a);
    PeaksNonNegative(w0, calls, a);
    BackedMeans(Run(w0, calls).market, a, RunLosses(w0, calls, a), ts[a]);
  }

  lemma GenesisBacked(owner: AccountId, assets: seq<GenesisAsset>, pools: seq<AssetId>, now: nat)
    ensures var w0 := GenesisWorld(owner, assets, pools, now);
            AllBacked(w0, [], map i | i in w0.market.pools :: Untouched)
  {
    var w0 := GenesisWorld(owner, assets, pools, now);
    GenesisInv(Genesis(Empty, owner, assets), now, pools);
    forall i | i in w0.market.pools ensures PoolBacked(w0.market, i, RunLosses(w0, [], i), Untouched) {
      EmptyPoolBacked(w0.market, i, RunLosses(w0, [], i));
    }
  }
}
