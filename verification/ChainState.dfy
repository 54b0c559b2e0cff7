// The three pallets on one ledger: every call as a step of the whole state. A call that traps is
// dropped by the executor with everything it wrote; a call that fails keeps what it wrote.

module ChainState {
  import opened Identifiers
  import opened AssetLedger
  import opened InterestModel
  import opened LendingMarket
  import opened LendingInvariant
  import opened LendingDrift
  import opened ConstantProduct
  import Swap = SwapExchange
  import opened SwapSafety

  datatype World = World(now: nat, market: Market, shares: Swap.Shares)

  datatype Call =
    | NextBlocks(blocks: nat)
    | IssueCall(who: AccountId, total: u128)
    | DestroyCall(who: AccountId, id: AssetId)
    | TransferCall(who: AccountId, id: AssetId, to: AccountId, amount: nat)
    | SetPriceCall(id: AssetId, price: nat)
    | SetInherentCall(id: AssetId)
    | InitPoolCall(id: AssetId, canBeCollateral: bool)
    | SupplyCall(who: AccountId, asset: AssetId, amount: nat)
    | WithdrawCall(who: AccountId, asset: AssetId, amount: nat)
    | BorrowCall(who: AccountId, asset: AssetId, amount: nat)
    | RepayCall(who: AccountId, asset: AssetId, amount: nat)
    | LiquidateCall(who: AccountId, target: AccountId, pay: AssetId, get: AssetId, amount: nat)
    | SwapInCall(who: AccountId, recipient: AccountId, assetIn: AssetId, assetOut: AssetId, amount: nat)
    | SwapOutCall(who: AccountId, recipient: AccountId, assetIn: AssetId, assetOut: AssetId, amount: nat)
    | AddLiquidityCall(who: AccountId, asset: AssetId, inherent: nat, paired: nat)
    | RemoveLiquidityCall(who: AccountId, asset: AssetId, liquidity: nat)

  function WithLedger(w: World, ledger: Ledger): World {
    w.(market := w.market.(ledger := ledger))
  }

  function AfterLending(w: World, r: (Market, Outcome)): World {
    if r.1 == Panicked then w else w.(market := r.0)
  }

  function AfterLiquidity(w: World, r: (Swap.Venue, bool)): World {
    if r.1 then WithLedger(w, r.0.ledger).(shares := r.0.shares) else w
  }

  function Apply(w: World, c: Call): World {
    var l := w.market.ledger;
    match c
    case NextBlocks(blocks) => w.(now := w.now + blocks)
    case IssueCall(who, total) => WithLedger(w, Issue(l, who, total))
    case DestroyCall(who, id) =>
      var (l', out) := Destroy(l, who, id);
      if out == SupplyUnderflow then w else WithLedger(w, l')
    case TransferCall(who, id, to, amount) => WithLedger(w, Transfer(l, who, id, to, amount).0)
    case SetPriceCall(id, price) => WithLedger(w, SetPrice(l, id, price))
    case SetInherentCall(id) => WithLedger(w, SetInherentAsset(l, id))
    case InitPoolCall(id, canBeCollateral) => w.(market := InitPool(w.market, w.now, id, canBeCollateral))
    case SupplyCall(who, asset, amount) => AfterLending(w, Supply(w.market, w.now, who, asset, amount))
    case WithdrawCall(who, asset, amount) => AfterLending(w, Withdraw(w.market, w.now, who, asset, amount))
    case BorrowCall(who, asset, amount) => AfterLending(w, Borrow(w.market, w.now, who, asset, amount))
    case RepayCall(who, asset, amount) => AfterLending(w, Repay(w.market, w.now, who, asset, amount))
    case LiquidateCall(who, target, pay, get, amount) =>
      AfterLending(w, Liquidate(w.market, w.now, who, target, pay, get, amount))
    case SwapInCall(who, recipient, assetIn, assetOut, amount) =>
      WithLedger(w, Swap.SwapExactInput(l, who, recipient, assetIn, assetOut, amount).0)
    case SwapOutCall(who, recipient, assetIn, assetOut, amount) =>
      WithLedger(w, Swap.SwapExactOutput(l, who, recipient, assetIn, assetOut, amount).0)
    case AddLiquidityCall(who, asset, inherent, paired) =>
      AfterLiquidity(w, Swap.AddLiquidity(l, w.shares, who, asset, inherent, paired))
    case RemoveLiquidityCall(who, asset, liquidity) =>
      AfterLiquidity(w, Swap.RemoveLiquidity(l, w.shares, who, asset, liquidity))
  }

  /** Calls are signed by user accounts, and a pool is initialised once. */
  predicate Legal(w: World, c: Call) {
    match c
    case NextBlocks(_) => true
    case SetPriceCall(_, _) => true
    case SetInherentCall(_) => true
    case InitPoolCall(id, _) => id !in w.market.pools
    case _ => c.who.User?
  }

  /** Reachable-state invariant of the whole chain. */
  ghost predicate WorldInv(w: World) {
    && Conserved(w.market.ledger)
    && Inv(w.market, w.now)
    && SharesAddUp(w.shares)
  }

  // ---------- what calls do to the ledger ----------

  /** Conservation carries over, and nobody but a pool's own calls took from its reserves. */
  ghost predicate PaysSafely(l: Ledger, l': Ledger) {
    && (Conserved(l) ==> Conserved(l'))
    && l'.inherentAsset == l.inherentAsset
    && forall a :: Swap.InherentReserve(l, a) <= Swap.InherentReserve(l', a) && Swap.PairedReserve(l, a) <= Swap.PairedReserve(l', a)
  }

  lemma TransferPaysSafely(l: Ledger, from: AccountId, id: AssetId, to: AccountId, amount: nat)
    requires !from.Exchange?
    ensures PaysSafely(l, Transfer(l, from, id, to, amount).0)
  {
    var l' := Transfer(l, from, id, to, amount).0;
    if Conserved(l) {
      TransferConserves(l, from, id, to, amount);
    }
    forall a ensures Swap.InherentReserve(l, a) <= Swap.InherentReserve(l', a) && Swap.PairedReserve(l, a) <= Swap.PairedReserve(l', a) {
      PaymentOnlyAdds(l, from, id, to, amount, a);
    }
  }

  lemma LendingPaysSafely(m: Market, now: nat, who: AccountId, asset: AssetId, amount: nat)
    requires who.User?
    ensures PaysSafely(m.ledger, Supply(m, now, who, asset, amount).0.ledger)
    ensures PaysSafely(m.ledger, Repay(m, now, who, asset, amount).0.ledger)
    ensures PaysSafely(m.ledger, Borrow(m, now, who, asset, amount).0.ledger)
    ensures PaysSafely(m.ledger, Withdraw(m, now, who, asset, amount).0.ledger)
  {
    if asset in m.pools {
      var pool := Accrue(m.pools[asset], now);
      TransferPaysSafely(m.ledger, who, asset, LendingPallet, amount);
      WithdrawPaysSafely(m, pool, ScaleOf(m, now), who, asset, amount);
      BorrowPaysSafely(m, pool, ScaleOf(m, now), who, asset, amount);
      RepayPaysSafely(m, pool, who, asset, amount);
    }
  }

  lemma WithdrawPaysSafely(m: Market, pool: Pool, sc: Scale, who: AccountId, asset: AssetId, amount: nat)
    requires who.User?
    ensures PaysSafely(m.ledger, WithdrawPool(m, pool, sc, who, asset, amount).0.ledger)
  {
    var m1 := AccrueSupplier(m, pool, who, asset);
    if (asset, who) in m1.supplies.records {
      TransferPaysSafely(m.ledger, LendingPallet, asset, who, Min(amount, m1.supplies.records[(asset, who)].amount));
    }
  }

  lemma BorrowPaysSafely(m: Market, pool: Pool, sc: Scale, who: AccountId, asset: AssetId, amount: nat)
    requires who.User?
    ensures PaysSafely(m.ledger, BorrowPool(m, pool, sc, who, asset, amount).0.ledger)
  {
    TransferPaysSafely(m.ledger, LendingPallet, asset, who, amount);
  }

  lemma RepayPaysSafely(m: Market, pool: Pool, who: AccountId, asset: AssetId, amount: nat)
    requires who.User?
    ensures PaysSafely(m.ledger, RepayPool(m, pool, who, asset, amount).0.ledger)
  {
    var m1 := AccrueBorrower(m, pool, who, asset);
    if (asset, who) in m1.debts.records {
      TransferPaysSafely(m.ledger, who, asset, LendingPallet, Min(amount, m1.debts.records[(asset, who)].amount));
    }
  }

  lemma SeizePaysSafely(m: Market, payPool: Pool, getPool: Pool, who: AccountId, target: AccountId, pay: AssetId, get: AssetId, paid: nat)
    requires who.User? && Price(m.ledger, get) > 0 && getPool.discountFactor > 0
    ensures PaysSafely(m.ledger, Seize(m, payPool, getPool, who, target, pay, get, paid).0.ledger)
  {
    var seized := SeizedAmount(m, getPool, pay, get, paid);
    var l1 := Transfer(m.ledger, who, pay, LendingPallet, paid).0;
    var l2 := Transfer(l1, LendingPallet, get, who, seized).0;
    TransferPaysSafely(m.ledger, who, pay, LendingPallet, paid);
    TransferPaysSafely(l1, LendingPallet, get, who, seized);
    PaysSafelyTwice(m.ledger, l1, l2);
    assert Seize(m, payPool, getPool, who, target, pay, get, paid).0.ledger in {m.ledger, l1, l2};
  }

  lemma PaysSafelyTwice(l: Ledger, l1: Ledger, l2: Ledger)
    requires PaysSafely(l, l1) && PaysSafely(l1, l2)
    ensures PaysSafely(l, l2) && PaysSafely(l, l)
  {
  }

  lemma LiquidatePaysSafely(m: Market, now: nat, who: AccountId, target: AccountId, pay: AssetId, get: AssetId, amount: nat)
    requires who.User?
    ensures PaysSafely(m.ledger, Liquidate(m, now, who, target, pay, get, amount).0.ledger)
  {
    if pay in m.pools && get in m.pools {
      LiquidatePoolsPaysSafely(m, Accrue(m.pools[pay], now), Accrue(m.pools[get], now), ScaleOf(m, now), who, target, pay, get, amount);
    }
  }

  lemma LiquidatePoolsPaysSafely(m: Market, payPool: Pool, getPool: Pool, sc: Scale, who: AccountId, target: AccountId, pay: AssetId, get: AssetId, amount: nat)
    requires who.User?
    ensures PaysSafely(m.ledger, LiquidatePools(m, payPool, getPool, sc, who, target, pay, get, amount).0.ledger)
  {
    var m1 := AccrueTarget(m, payPool, getPool, target, pay, get);
    if LiquidateCheck(m1, getPool, sc, target, pay, get) == Done {
      SeizePaysSafely(m1, payPool, getPool, who, target, pay, get, PaidAmount(m1, getPool, target, pay, get, amount));
    }
  }

  /** Calls of the other pallets: conservation, and the lending pallet is never debited. */
  ghost predicate LeavesPallet(l: Ledger, l': Ledger) {
    && (Conserved(l) ==> Conserved(l'))
    && forall a :: Balance(l, a, LendingPallet) <= Balance(l', a, LendingPallet)
  }

  lemma PayLeavesPallet(l: Ledger, from: AccountId, id: AssetId, to: AccountId, amount: nat)
    requires from != LendingPallet
    ensures LeavesPallet(l, Swap.Pay(l, from, id, to, amount))
  {
    if Conserved(l) {
      TransferConserves(l, from, id, to, amount);
    }
    forall a ensures Balance(l, a, LendingPallet) <= Balance(Swap.Pay(l, from, id, to, amount), a, LendingPallet) {
      PalletBalance(l, from, id, to, amount, a);
    }
  }

  lemma TwoPaysLeavePallet(l: Ledger, from: AccountId, id: AssetId, to: AccountId, amount: nat, from': AccountId, id': AssetId, to': AccountId, amount': nat)
    requires from != LendingPallet && from' != LendingPallet
    ensures LeavesPallet(l, Swap.Pay(Swap.Pay(l, from, id, to, amount), from', id', to', amount'))
  {
    PayLeavesPallet(l, from, id, to, amount);
    PayLeavesPallet(Swap.Pay(l, from, id, to, amount), from', id', to', amount');
  }

  lemma ThreePaysLeavePallet(l: Ledger, from: AccountId, a: AssetId, poolA: AccountId, input: nat, i: AssetId, poolB: AccountId, mid: nat, b: AssetId, to: AccountId, out: nat)
    requires from.User? && poolA.Exchange? && poolB.Exchange?
    ensures LeavesPallet(l, Swap.Pay(Swap.Pay(Swap.Pay(l, from, a, poolA, input), poolA, i, poolB, mid), poolB, b, to, out))
  {
    TwoPaysLeavePallet(l, from, a, poolA, input, poolA, i, poolB, mid);
    PayLeavesPallet(Swap.Pay(Swap.Pay(l, from, a, poolA, input), poolA, i, poolB, mid), poolB, b, to, out);
  }

  lemma SwapsLeavePallet(l: Ledger, who: AccountId, recipient: AccountId, assetIn: AssetId, assetOut: AssetId, amount: nat)
    requires who.User?
    ensures LeavesPallet(l, Swap.SwapExactInput(l, who, recipient, assetIn, assetOut, amount).0)
    ensures LeavesPallet(l, Swap.SwapExactOutput(l, who, recipient, assetIn, assetOut, amount).0)
  {
    if assetIn == l.inherentAsset {
      InherentSwapsLeavePallet(l, who, recipient, assetOut, amount);
    } else if assetOut == l.inherentAsset {
      PairedSwapsLeavePallet(l, who, recipient, assetIn, amount);
    } else {
      CrossInLeavesPallet(l, who, recipient, assetIn, assetOut, amount);
      CrossForLeavesPallet(l, who, recipient, assetIn, assetOut, amount);
    }
  }

  lemma InherentSwapsLeavePallet(l: Ledger, who: AccountId, recipient: AccountId, paired: AssetId, amount: nat)
    requires who.User?
    ensures LeavesPallet(l, Swap.InherentIn(l, who, recipient, paired, amount).0)
    ensures LeavesPallet(l, Swap.InherentFor(l, who, recipient, paired, amount).0)
  {
    var pool, x, y := Swap.PoolOf(l, paired), Swap.InherentReserve(l, paired), Swap.PairedReserve(l, paired);
    if x > 0 && y > 0 {
      var charged := Swap.InputAtOutput(amount, x, y).n;
      TwoPaysLeavePallet(l, who, l.inherentAsset, pool, amount, pool, paired, recipient, Output(amount, x, y));
      TwoPaysLeavePallet(l, who, l.inherentAsset, pool, charged, pool, paired, recipient, amount);
    }
  }

  lemma PairedSwapsLeavePallet(l: Ledger, who: AccountId, recipient: AccountId, paired: AssetId, amount: nat)
    requires who.User?
    ensures LeavesPallet(l, Swap.PairedIn(l, who, recipient, paired, amount).0)
    ensures LeavesPallet(l, Swap.PairedFor(l, who, recipient, paired, amount).0)
  {
    var pool, x, y := Swap.PoolOf(l, paired), Swap.PairedReserve(l, paired), Swap.InherentReserve(l, paired);
    if x > 0 && y > 0 {
      var charged := Swap.InputAtOutput(amount, x, y).n;
      TwoPaysLeavePallet(l, who, paired, pool, amount, pool, l.inherentAsset, recipient, Output(amount, x, y));
      TwoPaysLeavePallet(l, who, paired, pool, charged, pool, l.inherentAsset, recipient, amount);
    }
  }

  lemma CrossInLeavesPallet(l: Ledger, who: AccountId, recipient: AccountId, a: AssetId, b: AssetId, amount: nat)
    requires who.User?
    ensures LeavesPallet(l, Swap.CrossIn(l, who, recipient, a, b, amount).0)
  {
    if Swap.CrossIn(l, who, recipient, a, b, amount).1 != Swap.EmptyPool {
      var mid := Output(amount, Swap.PairedReserve(l, a), Swap.InherentReserve(l, a));
      var out := Output(mid, Swap.InherentReserve(l, b), Swap.PairedReserve(l, b));
      ThreePaysLeavePallet(l, who, a, Swap.PoolOf(l, a), amount, l.inherentAsset, Swap.PoolOf(l, b), mid, b, recipient, out);
    }
  }

  lemma CrossForLeavesPallet(l: Ledger, who: AccountId, recipient: AccountId, a: AssetId, b: AssetId, amount: nat)
    requires who.User?
    ensures LeavesPallet(l, Swap.CrossFor(l, who, recipient, a, b, amount).0)
  {
    if Swap.CrossFor(l, who, recipient, a, b, amount).1 != Swap.EmptyPool {
      var mid := Swap.InputAtOutput(amount, Swap.InherentReserve(l, b), Swap.PairedReserve(l, b)).n;
      var charged := Swap.InputAtOutput(mid, Swap.PairedReserve(l, a), Swap.InherentReserve(l, a)).n;
      ThreePaysLeavePallet(l, who, a, Swap.PoolOf(l, a), charged, l.inherentAsset, Swap.PoolOf(l, b), mid, b, recipient, amount);
    }
  }

  lemma LiquidityLeavesPallet(l: Ledger, sh: Swap.Shares, who: AccountId, asset: AssetId, inherent: nat, paired: nat, liquidity: nat)
    requires who.User?
    ensures LeavesPallet(l, Swap.AddLiquidity(l, sh, who, asset, inherent, paired).0.ledger)
    ensures LeavesPallet(l, Swap.RemoveLiquidity(l, sh, who, asset, liquidity).0.ledger)
  {
    var pool := Swap.PoolOf(l, asset);
    TwoPaysLeavePallet(l, who, l.inherentAsset, pool, inherent, who, asset, pool, paired);
    if Swap.TotalShares(sh, asset) > 0 {
      TwoPaysLeavePallet(l, pool, l.inherentAsset, who, Burned(Swap.InherentReserve(l, asset), liquidity, Swap.TotalShares(sh, asset)),
                         pool, asset, who, Burned(Swap.PairedReserve(l, asset), liquidity, Swap.TotalShares(sh, asset)));
    }
  }

  /** A call of the assets or swap pallet, or a passing block: the lending side keeps its pools and
      records, and its account is not debited. */
  predicate OutsideLending(c: Call) {
    match c
    case InitPoolCall(_, _) => false
    case SupplyCall(_, _, _) => false
    case WithdrawCall(_, _, _) => false
    case BorrowCall(_, _, _) => false
    case RepayCall(_, _, _) => false
    case LiquidateCall(_, _, _, _, _) => false
    case _ => true
  }

  lemma OutsideLeavesPallet(w: World, c: Call)
    requires OutsideLending(c) && Legal(w, c) && Conserved(w.market.ledger)
    ensures var w' := Apply(w, c);
            && w'.market == w.market.(ledger := w'.market.ledger)
            && w.now <= w'.now
            && LeavesPallet(w.market.ledger, w'.market.ledger)
  {
    var l := w.market.ledger;
    match c
    case NextBlocks(blocks) =>
    case IssueCall(who, total) =>
      IssueConserves(l, who, total);
    case DestroyCall(who, id) =>
      DestroyConserves(l, who, id);
    case TransferCall(who, id, to, amount) =>
      PayLeavesPallet(l, who, id, to, amount);
    case SetPriceCall(id, price) =>
      SettersConserve(l, id, price);
    case SetInherentCall(id) =>
      SettersConserve(l, id, 0);
    case SwapInCall(who, recipient, assetIn, assetOut, amount) =>
      SwapsLeavePallet(l, who, recipient, assetIn, assetOut, amount);
    case SwapOutCall(who, recipient, assetIn, assetOut, amount) =>
      SwapsLeavePallet(l, who, recipient, assetIn, assetOut, amount);
    case AddLiquidityCall(who, asset, inherent, paired) =>
      LiquidityLeavesPallet(l, w.shares, who, asset, inherent, paired, 0);
    case RemoveLiquidityCall(who, asset, liquidity) =>
      LiquidityLeavesPallet(l, w.shares, who, asset, 0, 0, liquidity);
  }

  // ---------- the invariant over steps ----------

  lemma SharesStep(w: World, c: Call)
    requires SharesAddUp(w.shares)
    ensures SharesAddUp(Apply(w, c).shares)
  {
    var l := w.market.ledger;
    match c
    case AddLiquidityCall(who, asset, inherent, paired) =>
      AddLiquidityAddsUp(l, w.shares, who, asset, inherent, paired);
    case RemoveLiquidityCall(who, asset, liquidity) =>
      RemoveLiquidityAddsUp(l, w.shares, who, asset, liquidity);
    case _ =>
  }

  lemma LendingStepKeepsInv(w: World, c: Call)
    requires Inv(w.market, w.now) && Legal(w, c) && !OutsideLending(c)
    ensures Inv(Apply(w, c).market, w.now)
  {
    hide Inv, ScaleOf, InitPool, Supply, Withdraw, Borrow, Repay, Liquidate;
    var m, now := w.market, w.now;
    match c
    case InitPoolCall(id, canBeCollateral) =>
      InitPoolKeepsInvIff(m, now, id, canBeCollateral);
    case SupplyCall(who, asset, amount) =>
      SupplyEffect(m, now, who, asset, amount);
    case WithdrawCall(who, asset, amount) =>
      WithdrawEffect(m, now, who, asset, amount);
    case BorrowCall(who, asset, amount) =>
      BorrowEffect(m, now, who, asset, amount);
    case RepayCall(who, asset, amount) =>
      RepayEffect(m, now, who, asset, amount);
    case LiquidateCall(who, target, pay, get, amount) =>
      LiquidateEffect(m, now, who, target, pay, get, amount);
  }

  lemma LendingStepPays(w: World, c: Call)
    requires Legal(w, c) && !OutsideLending(c)
    ensures PaysSafely(w.market.ledger, Apply(w, c).market.ledger)
    ensures Apply(w, c).shares == w.shares && Apply(w, c).now == w.now
  {
    var m, now := w.market, w.now;
    match c
    case InitPoolCall(id, canBeCollateral) =>
    case SupplyCall(who, asset, amount) =>
      LendingPaysSafely(m, now, who, asset, amount);
    case WithdrawCall(who, asset, amount) =>
      LendingPaysSafely(m, now, who, asset, amount);
    case BorrowCall(who, asset, amount) =>
      LendingPaysSafely(m, now, who, asset, amount);
    case RepayCall(who, asset, amount) =>
      LendingPaysSafely(m, now, who, asset, amount);
    case LiquidateCall(who, target, pay, get, amount) =>
      LiquidatePaysSafely(m, now, who, target, pay, get, amount);
  }

  /** Every legal call, on every outcome, keeps the invariant of the whole chain. */
  lemma StepKeepsInv(w: World, c: Call)
    requires WorldInv(w) && Legal(w, c)
    ensures WorldInv(Apply(w, c))
  {
    SharesStep(w, c);
    if OutsideLending(c) {
      OutsideLeavesPallet(w, c);
      var w' := Apply(w, c);
      BlocksKeepInv(w.market, w.now, w'.now);
      LedgerKeepsInv(w.market, w'.now, w'.market.ledger);
    } else {
      LendingStepKeepsInv(w, c);
      LendingStepPays(w, c);
    }
  }
}
