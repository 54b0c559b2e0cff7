// What every call of the exchange answers and who holds what afterwards: each balance of each account,
// in terms of the reserves and balances before the call.

module SwapOutcomes {
  import opened Identifiers
  import opened FixedPoint
  import opened AssetLedger
  import opened ConstantProduct
  import opened SwapExchange
  import opened SwapSafety

  // ---------- the way of a swap ----------

  /** A pool that holds some of both assets. */
  predicate Stocked(l: Ledger, paired: AssetId) {
    InherentReserve(l, paired) > 0 && PairedReserve(l, paired) > 0
  }

  /** The paired asset of the pool that pays the recipient. */
  function LastPool(l: Ledger, assetIn: AssetId, assetOut: AssetId): AssetId {
    if assetOut == l.inherentAsset then assetIn else assetOut
  }

  /** Neither side is the inherent asset: the swap goes through it. */
  predicate TwoHop(l: Ledger, assetIn: AssetId, assetOut: AssetId) {
    assetIn != l.inherentAsset && assetOut != l.inherentAsset
  }

  /** Every pool on the way of a swap is stocked. */
  predicate Tradable(l: Ledger, assetIn: AssetId, assetOut: AssetId) {
    Stocked(l, FirstPool(l, assetIn, assetOut)) && Stocked(l, LastPool(l, assetIn, assetOut))
  }

  /** All balances after a swap that takes `paidIn` from the payer, moves `hop` of the inherent asset
      between two pools if there are two, and pays `paidOut` to the recipient. */
  ghost predicate Swapped(l: Ledger, l': Ledger, payer: AccountId, recipient: AccountId, assetIn: AssetId, assetOut: AssetId,
                          paidIn: nat, hop: nat, paidOut: nat, i: AssetId, who: AccountId) {
    var first, last := PoolOf(l, FirstPool(l, assetIn, assetOut)), PoolOf(l, LastPool(l, assetIn, assetOut));
    && l' == l.(balances := l'.balances)
    && Balance(l', i, who) == Balance(l, i, who)
         + Shift(i, who, assetIn, payer, first, paidIn)
         + (if TwoHop(l, assetIn, assetOut) then Shift(i, who, l.inherentAsset, first, last, hop) else 0)
         + Shift(i, who, assetOut, last, recipient, paidOut)
  }

  /** Two payments through one pool, of which the first never takes from it. */
  lemma TwoPayments(l: Ledger, payer: AccountId, idIn: AssetId, pool: AccountId, input: nat, idOut: AssetId, recipient: AccountId, out: nat, i: AssetId, who: AccountId)
    requires payer != pool
    ensures var l' := Pay(Pay(l, payer, idIn, pool, input), pool, idOut, recipient, out);
            var paidIn := Paid(input, Balance(l, idIn, payer));
            var paidOut := Paid(out, Balance(l, idOut, pool) + (if idIn == idOut then paidIn else 0));
            && l' == l.(balances := l'.balances)
            && Balance(l', i, who) == Balance(l, i, who) + Shift(i, who, idIn, payer, pool, paidIn) + Shift(i, who, idOut, pool, recipient, paidOut)
  {
    hide Pay, Balance;
    PayMoves(l, payer, idIn, pool, input, i, who);
    PayMoves(l, payer, idIn, pool, input, idOut, pool);
    PayMoves(Pay(l, payer, idIn, pool, input), pool, idOut, recipient, out, i, who);
  }

  /** The three payments of a two-hop swap. */
  lemma ThreePayments(l: Ledger, payer: AccountId, recipient: AccountId, a: AssetId, b: AssetId, input: nat, mid: nat, out: nat, i: AssetId, who: AccountId)
    requires payer.User? && TwoHop(l, a, b)
    ensures var l1 := Pay(l, payer, a, PoolOf(l, a), input);
            var l3 := Pay(Pay(l1, PoolOf(l, a), l.inherentAsset, PoolOf(l, b), mid), PoolOf(l, b), b, recipient, out);
            var paidIn := Paid(input, Balance(l, a, payer));
            Swapped(l, l3, payer, recipient, a, b, paidIn, Paid(mid, InherentReserve(l, a)),
                    Paid(out, PairedReserve(l, b) + (if a == b then paidIn else 0)), i, who)
  {
    var l1 := Pay(l, payer, a, PoolOf(l, a), input);
    var l2 := Pay(l1, PoolOf(l, a), l.inherentAsset, PoolOf(l, b), mid);
    hide Pay, Balance;
    PayMoves(l, payer, a, PoolOf(l, a), input, i, who);
    PayMoves(l, payer, a, PoolOf(l, a), input, l.inherentAsset, PoolOf(l, a));
    PayMoves(l, payer, a, PoolOf(l, a), input, b, PoolOf(l, b));
    PayMoves(l1, PoolOf(l, a), l.inherentAsset, PoolOf(l, b), mid, i, who);
    PayMoves(l1, PoolOf(l, a), l.inherentAsset, PoolOf(l, b), mid, b, PoolOf(l, b));
    PayMoves(l2, PoolOf(l, b), b, recipient, out, i, who);
  }

  // ---------- exact input ----------

  /** The middle amount of a two-hop swap, and what a swap pays out, from the reserves before it. */
  function Hop(l: Ledger, assetIn: AssetId, input: nat): nat
    requires Stocked(l, assetIn)
  {
    Output(input, PairedReserve(l, assetIn), InherentReserve(l, assetIn))
  }

  function Received(l: Ledger, assetIn: AssetId, assetOut: AssetId, input: nat): nat
    requires Tradable(l, assetIn, assetOut)
  {
    if TwoHop(l, assetIn, assetOut)
    then Output(Hop(l, assetIn, input), InherentReserve(l, assetOut), PairedReserve(l, assetOut))
    else Output(input, Reserve(l, assetIn, assetOut, assetIn), Reserve(l, assetIn, assetOut, assetOut))
  }

  /** An exact-input swap finds an empty pool exactly when a pool on its way lacks one asset, and then
      does nothing. Otherwise it quotes the price of the reserves before it, both hops included, and
      pays the recipient exactly that, whether or not the payer covered the input. */
  lemma ExactInputPays(l: Ledger, payer: AccountId, recipient: AccountId, assetIn: AssetId, assetOut: AssetId, input: nat, i: AssetId, who: AccountId)
    requires payer.User?
    ensures var (l', quote) := SwapExactInput(l, payer, recipient, assetIn, assetOut, input);
            && (quote == EmptyPool <==> !Tradable(l, assetIn, assetOut))
            && (quote == EmptyPool ==> l' == l)
            && (Tradable(l, assetIn, assetOut) ==>
                var out := Received(l, assetIn, assetOut, input);
                && quote == Amount(out)
                && Swapped(l, l', payer, recipient, assetIn, assetOut, Paid(input, Balance(l, assetIn, payer)),
                           if TwoHop(l, assetIn, assetOut) then Hop(l, assetIn, input) else 0, out, i, who))
  {
    if Tradable(l, assetIn, assetOut) {
      if TwoHop(l, assetIn, assetOut) {
        CrossInPays(l, payer, recipient, assetIn, assetOut, input, i, who);
      } else {
        DirectInPays(l, payer, recipient, assetIn, assetOut, input, i, who);
      }
    }
  }

  lemma CrossInPays(l: Ledger, payer: AccountId, recipient: AccountId, a: AssetId, b: AssetId, input: nat, i: AssetId, who: AccountId)
    requires payer.User? && TwoHop(l, a, b) && Stocked(l, a) && Stocked(l, b)
    ensures var (l', quote) := CrossIn(l, payer, recipient, a, b, input);
            var mid := Output(input, PairedReserve(l, a), InherentReserve(l, a));
            var out := Output(mid, InherentReserve(l, b), PairedReserve(l, b));
            && quote == Amount(out)
            && Swapped(l, l', payer, recipient, a, b, Paid(input, Balance(l, a, payer)), mid, out, i, who)
  {
    var mid := Output(input, PairedReserve(l, a), InherentReserve(l, a));
    var out := Output(mid, InherentReserve(l, b), PairedReserve(l, b));
    SwapKeepsProduct(input, PairedReserve(l, a), InherentReserve(l, a));
    SwapKeepsProduct(mid, InherentReserve(l, b), PairedReserve(l, b));
    hide Pay, Output, Swapped;
    ThreePayments(l, payer, recipient, a, b, input, mid, out, i, who);
  }

  lemma DirectInPays(l: Ledger, payer: AccountId, recipient: AccountId, assetIn: AssetId, assetOut: AssetId, input: nat, i: AssetId, who: AccountId)
    requires payer.User? && !TwoHop(l, assetIn, assetOut) && Tradable(l, assetIn, assetOut)
    ensures var (l', quote) := SwapExactInput(l, payer, recipient, assetIn, assetOut, input);
            var out := Output(input, Reserve(l, assetIn, assetOut, assetIn), Reserve(l, assetIn, assetOut, assetOut));
            && quote == Amount(out)
            && Swapped(l, l', payer, recipient, assetIn, assetOut, Paid(input, Balance(l, assetIn, payer)), 0, out, i, who)
  {
    var x, y := Reserve(l, assetIn, assetOut, assetIn), Reserve(l, assetIn, assetOut, assetOut);
    SwapKeepsProduct(input, x, y);
    var out, pool := Output(input, x, y), PoolOf(l, FirstPool(l, assetIn, assetOut));
    hide Pay, Output;
    TwoPayments(l, payer, assetIn, pool, input, assetOut, recipient, out, i, who);
  }

  /** The named recipient is the one who gets what was quoted. */
  lemma RecipientGetsQuote(l: Ledger, payer: AccountId, recipient: AccountId, assetIn: AssetId, assetOut: AssetId, input: nat)
    requires payer.User? && recipient.User? && (recipient != payer || assetIn != assetOut)
    ensures var (l', quote) := SwapExactInput(l, payer, recipient, assetIn, assetOut, input);
            quote.Amount? ==> Balance(l', assetOut, recipient) == Balance(l, assetOut, recipient) + quote.n
  {
    ExactInputPays(l, payer, recipient, assetIn, assetOut, input, assetOut, recipient);
  }

  // ---------- exact output ----------

  /** The middle amount of a two-hop swap and the charge, from the reserves before it: the outputs
      themselves where the reserve covers them. */
  function OutputHop(l: Ledger, assetOut: AssetId, output: nat): nat {
    Charge(output, PairedReserve(l, assetOut))
  }

  function Charged(l: Ledger, assetIn: AssetId, assetOut: AssetId, output: nat): nat {
    if TwoHop(l, assetIn, assetOut)
    then Charge(OutputHop(l, assetOut, output), InherentReserve(l, assetIn))
    else Charge(output, Reserve(l, assetIn, assetOut, assetOut))
  }

  /** An exact-output swap likewise; a charge the payer does not cover is not paid, and an output the
      pool does not cover is not paid out. */
  lemma ExactOutputPays(l: Ledger, payer: AccountId, recipient: AccountId, assetIn: AssetId, assetOut: AssetId, output: nat, i: AssetId, who: AccountId)
    requires payer.User?
    ensures var (l', quote) := SwapExactOutput(l, payer, recipient, assetIn, assetOut, output);
            && (quote == EmptyPool <==> !Tradable(l, assetIn, assetOut))
            && (quote == EmptyPool ==> l' == l)
            && (Tradable(l, assetIn, assetOut) ==>
                var charged := Charged(l, assetIn, assetOut, output);
                var paidIn := Paid(charged, Balance(l, assetIn, payer));
                var held := Balance(l, assetOut, PoolOf(l, LastPool(l, assetIn, assetOut))) + (if assetIn == assetOut then paidIn else 0);
                && quote == Amount(charged)
                && Swapped(l, l', payer, recipient, assetIn, assetOut, paidIn,
                           if TwoHop(l, assetIn, assetOut) then Paid(OutputHop(l, assetOut, output), InherentReserve(l, assetIn)) else 0,
                           Paid(output, held), i, who))
  {
    if Tradable(l, assetIn, assetOut) {
      if TwoHop(l, assetIn, assetOut) {
        CrossForPays(l, payer, recipient, assetIn, assetOut, output, i, who);
      } else {
        DirectForPays(l, payer, recipient, assetIn, assetOut, output, i, who);
      }
    }
  }

  lemma CrossForPays(l: Ledger, payer: AccountId, recipient: AccountId, a: AssetId, b: AssetId, output: nat, i: AssetId, who: AccountId)
    requires payer.User? && TwoHop(l, a, b) && Stocked(l, a) && Stocked(l, b)
    ensures var (l', quote) := CrossFor(l, payer, recipient, a, b, output);
            var mid := Charge(output, PairedReserve(l, b));
            var charged := Charge(mid, InherentReserve(l, a));
            var paidIn := Paid(charged, Balance(l, a, payer));
            && quote == Amount(charged)
            && Swapped(l, l', payer, recipient, a, b, paidIn, Paid(mid, InherentReserve(l, a)),
                       Paid(output, PairedReserve(l, b) + (if a == b then paidIn else 0)), i, who)
  {
    hide Pay, Swapped, Paid;
    var mid := Charge(output, PairedReserve(l, b));
    ThreePayments(l, payer, recipient, a, b, Charge(mid, InherentReserve(l, a)), mid, output, i, who);
  }

  lemma DirectForPays(l: Ledger, payer: AccountId, recipient: AccountId, assetIn: AssetId, assetOut: AssetId, output: nat, i: AssetId, who: AccountId)
    requires payer.User? && !TwoHop(l, assetIn, assetOut) && Tradable(l, assetIn, assetOut)
    ensures var (l', quote) := SwapExactOutput(l, payer, recipient, assetIn, assetOut, output);
            var reserve := Reserve(l, assetIn, assetOut, assetOut);
            var charged := Charge(output, reserve);
            var paidIn := Paid(charged, Balance(l, assetIn, payer));
            && quote == Amount(charged)
            && Swapped(l, l', payer, recipient, assetIn, assetOut, paidIn, 0, Paid(output, reserve + (if assetIn == assetOut then paidIn else 0)), i, who)
  {
    hide Pay, Paid;
    var charged := Charge(output, Reserve(l, assetIn, assetOut, assetOut));
    TwoPayments(l, payer, assetIn, PoolOf(l, FirstPool(l, assetIn, assetOut)), charged, assetOut, recipient, output, i, who);
  }

  // ---------- liquidity ----------

  /** All balances after an addition: each deposit goes from the account to the pool, if it is covered. */
  lemma AdditionPays(l: Ledger, sh: Shares, account: AccountId, asset: AssetId, inherent: nat, paired: nat, i: AssetId, who: AccountId)
    requires account.User?
    ensures var l', pool := AddLiquidity(l, sh, account, asset, inherent, paired).0.ledger, PoolOf(l, asset);
            var first := Paid(inherent, Balance(l, l.inherentAsset, account));
            var second := Paid(paired, Balance(l, asset, account) - (if asset == l.inherentAsset then first else 0));
            && l' == l.(balances := l'.balances)
            && Balance(l', i, who) == Balance(l, i, who) + Shift(i, who, l.inherentAsset, account, pool, first) + Shift(i, who, asset, account, pool, second)
  {
    var l1 := Pay(l, account, l.inherentAsset, PoolOf(l, asset), inherent);
    hide Pay;
    PayMoves(l, account, l.inherentAsset, PoolOf(l, asset), inherent, i, who);
    PayMoves(l, account, l.inherentAsset, PoolOf(l, asset), inherent, asset, account);
    PayMoves(l1, account, asset, PoolOf(l, asset), paired, i, who);
  }

  /** An addition traps exactly when there are shares but no inherent reserve. Otherwise the account gets
      all new shares: as many as inherent units offered when the pool opens, and afterwards the greatest
      number in proportion to the reserve. */
  lemma AdditionMints(l: Ledger, sh: Shares, account: AccountId, asset: AssetId, inherent: nat, paired: nat, a: AssetId, who: AccountId)
    requires SharesAddUp(sh)
    ensures var (b, done) := AddLiquidity(l, sh, account, asset, inherent, paired);
            var n, t, h := TotalShares(b.shares, asset) - TotalShares(sh, asset), TotalShares(sh, asset), InherentReserve(l, asset);
            && (done <==> t == 0 || h > 0)
            && (!done ==> b.shares == sh)
            && (done ==>
                && (t == 0 ==> n == inherent)
                && (t > 0 ==> n * h <= t * inherent < (n + 1) * h)
                && TotalShares(b.shares, a) == TotalShares(sh, a) + (if a == asset then n else 0)
                && SharesOf(b.shares, a, who) == SharesOf(sh, a, who) + (if a == asset && who == account then n else 0)
                && b.shares.exchangeAccounts == sh.exchangeAccounts[asset := PoolOf(l, asset)])
  {
    var t, h := TotalShares(sh, asset), InherentReserve(l, asset);
    ShareWithinTotal(sh, asset, account);
    if t > 0 && h > 0 {
      var n := Minted(t, inherent, h);
      MintedIsGreatest(t, inherent, h, n);
      MintedIsGreatest(t, inherent, h, n + 1);
    }
  }

  /** All balances after a removal that is done: the account receives the greatest parts of both reserves
      in proportion to the burned shares, and gives up those shares; nobody else's change. */
  lemma RemovalPays(l: Ledger, sh: Shares, account: AccountId, asset: AssetId, liquidity: nat, i: AssetId, who: AccountId)
    requires SharesAddUp(sh) && account.User?
    ensures var (b, done) := RemoveLiquidity(l, sh, account, asset, liquidity);
            done ==>
              var l', pool, t := b.ledger, PoolOf(l, asset), TotalShares(sh, asset);
              var h, p := InherentReserve(l, asset), PairedReserve(l, asset);
              t > 0 &&
              var x, y := Burned(h, liquidity, t), Burned(p, liquidity, t);
              && x * t <= h * liquidity < (x + 1) * t && x <= h
              && y * t <= p * liquidity < (y + 1) * t
              && l' == l.(balances := l'.balances)
              && Balance(l', i, who) == Balance(l, i, who) + Shift(i, who, l.inherentAsset, pool, account, x)
                   + Shift(i, who, asset, pool, account, Paid(y, p - (if asset == l.inherentAsset then x else 0)))
  {
    if RemoveLiquidity(l, sh, account, asset, liquidity).1 {
      var t, h, p, pool := TotalShares(sh, asset), InherentReserve(l, asset), PairedReserve(l, asset), PoolOf(l, asset);
      var x, y := Burned(h, liquidity, t), Burned(p, liquidity, t);
      ShareWithinTotal(sh, asset, account);
      BurnKeepsValue(h, p, t, liquidity);
      FloorBounds(h * liquidity, t);
      FloorBounds(p * liquidity, t);
      hide Pay;
      PayMoves(l, pool, l.inherentAsset, account, x, i, who);
      PayMoves(l, pool, l.inherentAsset, account, x, asset, pool);
      PayMoves(Pay(l, pool, l.inherentAsset, account, x), pool, asset, account, y, i, who);
    }
  }

  lemma RemovalBurns(l: Ledger, sh: Shares, account: AccountId, asset: AssetId, liquidity: nat, a: AssetId, who: AccountId)
    requires SharesAddUp(sh)
    ensures var (b, done) := RemoveLiquidity(l, sh, account, asset, liquidity);
            && (done <==> TotalShares(sh, asset) > 0 && liquidity <= SharesOf(sh, asset, account))
            && (done ==>
                && TotalShares(b.shares, a) == TotalShares(sh, a) - (if a == asset then liquidity else 0)
                && SharesOf(b.shares, a, who) == SharesOf(sh, a, who) - (if a == asset && who == account then liquidity else 0)
                && b.shares.exchangeAccounts == sh.exchangeAccounts)
  {
    ShareWithinTotal(sh, asset, account);
  }
}
