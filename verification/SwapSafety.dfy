// Safety of the exchange on the ledger: reserve products under swaps, share accounting, and the
// value of a share.

module SwapSafety {
  import opened Identifiers
  import opened FixedPoint
  import opened Sums
  import opened AssetLedger
  import opened ConstantProduct
  import opened SwapExchange

  // ---------- payments and the reserves of one observed pool ----------

  /** What a payment of `amount` moves out of `balance`. */
  function Paid(amount: nat, balance: nat): nat {
    if amount <= balance then amount else 0
  }

  /** A payment as the reserves see it. */
  lemma PayMoves(l: Ledger, from: AccountId, id: AssetId, to: AccountId, amount: nat, i: AssetId, who: AccountId)
    ensures var l' := Pay(l, from, id, to, amount);
            && Balance(l', i, who) == Balance(l, i, who) + Shift(i, who, id, from, to, Paid(amount, Balance(l, id, from)))
            && l' == l.(balances := l'.balances)
  {
  }

  /** Nobody signs for a pool, so only the pool's own calls take from it. */
  lemma PaymentOnlyAdds(l: Ledger, from: AccountId, id: AssetId, to: AccountId, amount: nat, asset: AssetId)
    requires from != PoolOf(l, asset)
    ensures InherentReserve(l, asset) <= InherentReserve(Pay(l, from, id, to, amount), asset)
    ensures PairedReserve(l, asset) <= PairedReserve(Pay(l, from, id, to, amount), asset)
  {
  }

  // ---------- exact-input swaps ----------

  /** The observed pool's product does not fall and neither reserve is emptied. */
  ghost predicate KeepsProduct(l: Ledger, l': Ledger, asset: AssetId) {
    && l'.inherentAsset == l.inherentAsset
    && InherentReserve(l, asset) * PairedReserve(l, asset) <= InherentReserve(l', asset) * PairedReserve(l', asset)
    && (InherentReserve(l, asset) > 0 && PairedReserve(l, asset) > 0
        ==> InherentReserve(l', asset) > 0 && PairedReserve(l', asset) > 0)
  }

  lemma ReservesGrow(l: Ledger, l': Ledger, asset: AssetId)
    requires l'.inherentAsset == l.inherentAsset
    requires InherentReserve(l, asset) <= InherentReserve(l', asset)
    requires PairedReserve(l, asset) <= PairedReserve(l', asset)
    ensures KeepsProduct(l, l', asset)
  {
    MulLe(InherentReserve(l, asset), InherentReserve(l', asset), PairedReserve(l, asset));
    MulLe(PairedReserve(l, asset), PairedReserve(l', asset), InherentReserve(l', asset));
  }

  /** The reserves of the pool traded with, when the payer covers the input. */
  lemma InherentInReserves(l: Ledger, payer: AccountId, recipient: AccountId, paired: AssetId, input: nat)
    requires payer.User? && paired != l.inherentAsset
    requires InherentReserve(l, paired) > 0 && PairedReserve(l, paired) > 0
    ensures var (l', quote) := InherentIn(l, payer, recipient, paired, input);
            var out := Output(input, InherentReserve(l, paired), PairedReserve(l, paired));
            var paidIn := if input <= Balance(l, l.inherentAsset, payer) then input else 0;
            && quote == Amount(out) && out < PairedReserve(l, paired)
            && l'.inherentAsset == l.inherentAsset
            && InherentReserve(l', paired) == InherentReserve(l, paired) + paidIn
            && PairedReserve(l', paired) == PairedReserve(l, paired) - (if recipient == PoolOf(l, paired) then 0 else out)
  {
    var pool, out := PoolOf(l, paired), Output(input, InherentReserve(l, paired), PairedReserve(l, paired));
    SwapKeepsProduct(input, InherentReserve(l, paired), PairedReserve(l, paired));
    var l1 := Pay(l, payer, l.inherentAsset, pool, input);
    PayMoves(l, payer, l.inherentAsset, pool, input, l.inherentAsset, pool);
    PayMoves(l, payer, l.inherentAsset, pool, input, paired, pool);
    PayMoves(l1, pool, paired, recipient, out, l.inherentAsset, pool);
    PayMoves(l1, pool, paired, recipient, out, paired, pool);
  }

  lemma PairedInReserves(l: Ledger, payer: AccountId, recipient: AccountId, paired: AssetId, input: nat)
    requires payer.User? && paired != l.inherentAsset
    requires InherentReserve(l, paired) > 0 && PairedReserve(l, paired) > 0
    ensures var (l', quote) := PairedIn(l, payer, recipient, paired, input);
            var out := Output(input, PairedReserve(l, paired), InherentReserve(l, paired));
            var paidIn := if input <= Balance(l, paired, payer) then input else 0;
            && quote == Amount(out) && out < InherentReserve(l, paired)
            && l'.inherentAsset == l.inherentAsset
            && PairedReserve(l', paired) == PairedReserve(l, paired) + paidIn
            && InherentReserve(l', paired) == InherentReserve(l, paired) - (if recipient == PoolOf(l, paired) then 0 else out)
  {
    var pool, out := PoolOf(l, paired), Output(input, PairedReserve(l, paired), InherentReserve(l, paired));
    SwapKeepsProduct(input, PairedReserve(l, paired), InherentReserve(l, paired));
    var l1 := Pay(l, payer, paired, pool, input);
    PayMoves(l, payer, paired, pool, input, l.inherentAsset, pool);
    PayMoves(l, payer, paired, pool, input, paired, pool);
    PayMoves(l1, pool, l.inherentAsset, recipient, out, l.inherentAsset, pool);
    PayMoves(l1, pool, l.inherentAsset, recipient, out, paired, pool);
  }

  /** Because transfer results are discarded, a swap keeps its pool's product exactly when the payer
      covers the input, or nothing comes out, or it comes back to the pool. */
  lemma InherentInKeepsProductIff(l: Ledger, payer: AccountId, recipient: AccountId, paired: AssetId, input: nat)
    requires payer.User? && paired != l.inherentAsset
    requires InherentReserve(l, paired) > 0 && PairedReserve(l, paired) > 0
    ensures KeepsProduct(l, InherentIn(l, payer, recipient, paired, input).0, paired)
            <==> || input <= Balance(l, l.inherentAsset, payer)
                 || Output(input, InherentReserve(l, paired), PairedReserve(l, paired)) == 0
                 || recipient == PoolOf(l, paired)
  {
    var l' := InherentIn(l, payer, recipient, paired, input).0;
    InherentInReserves(l, payer, recipient, paired, input);
    ProductIff(input, InherentReserve(l, paired), PairedReserve(l, paired), InherentReserve(l', paired), PairedReserve(l', paired));
  }

  lemma PairedInKeepsProductIff(l: Ledger, payer: AccountId, recipient: AccountId, paired: AssetId, input: nat)
    requires payer.User? && paired != l.inherentAsset
    requires InherentReserve(l, paired) > 0 && PairedReserve(l, paired) > 0
    ensures KeepsProduct(l, PairedIn(l, payer, recipient, paired, input).0, paired)
            <==> || input <= Balance(l, paired, payer)
                 || Output(input, PairedReserve(l, paired), InherentReserve(l, paired)) == 0
                 || recipient == PoolOf(l, paired)
  {
    var l' := PairedIn(l, payer, recipient, paired, input).0;
    PairedInReserves(l, payer, recipient, paired, input);
    ProductIff(input, PairedReserve(l, paired), InherentReserve(l, paired), PairedReserve(l', paired), InherentReserve(l', paired));
  }

  lemma ProductIff(input: nat, x: nat, y: nat, x': nat, y': nat)
    requires x > 0 && y > 0
    requires x' == x || x' == x + input
    requires y' == y || y' == y - Output(input, x, y)
    ensures Output(input, x, y) < y && x' > 0 && y' > 0
    ensures x * y <= x' * y' <==> x' == x + input || y' == y
  {
    SwapKeepsProduct(input, x, y);
    if y' == y {
      MulLe(x, x', y);
    } else if x' != x + input {
      MulLt(y', y, x);
    }
  }

  /** A pool the swap does not trade with can only receive. */
  lemma OtherPoolUntouched(l: Ledger, payer: AccountId, recipient: AccountId, paired: AssetId, input: nat, asset: AssetId)
    requires payer.User? && asset != paired
    ensures KeepsProduct(l, InherentIn(l, payer, recipient, paired, input).0, asset)
    ensures KeepsProduct(l, PairedIn(l, payer, recipient, paired, input).0, asset)
  {
    var pool := PoolOf(l, paired);
    ReservesGrow(l, l, asset);
    match OutputAtInput(input, InherentReserve(l, paired), PairedReserve(l, paired))
    case EmptyPool =>
    case Amount(out) =>
      TwoPaymentsOnlyAdd(l, payer, l.inherentAsset, pool, input, paired, recipient, out, asset);
      match OutputAtInput(input, PairedReserve(l, paired), InherentReserve(l, paired))
      case EmptyPool =>
      case Amount(out') => TwoPaymentsOnlyAdd(l, payer, paired, pool, input, l.inherentAsset, recipient, out', asset);
  }

  lemma TwoPaymentsOnlyAdd(l: Ledger, payer: AccountId, idIn: AssetId, pool: AccountId, input: nat, idOut: AssetId, recipient: AccountId, out: nat, asset: AssetId)
    requires payer != PoolOf(l, asset) && pool != PoolOf(l, asset)
    ensures KeepsProduct(l, Pay(Pay(l, payer, idIn, pool, input), pool, idOut, recipient, out), asset)
  {
    var l1 := Pay(l, payer, idIn, pool, input);
    PaymentOnlyAdds(l, payer, idIn, pool, input, asset);
    PaymentOnlyAdds(l1, pool, idOut, recipient, out, asset);
    ReservesGrow(l, Pay(l1, pool, idOut, recipient, out), asset);
  }

  /** Two-hop swaps are priced from the state before either hop, a == b included. Every pool's product
      is kept except that of the pool the input was meant for, when the payer does not cover the
      input and that pool pays out all the same. */
  lemma CrossInKeepsProductIff(l: Ledger, payer: AccountId, recipient: AccountId, a: AssetId, b: AssetId, input: nat, asset: AssetId)
    requires payer.User? && a != l.inherentAsset && b != l.inherentAsset && asset != l.inherentAsset
    requires InherentReserve(l, a) > 0 && PairedReserve(l, a) > 0 && InherentReserve(l, b) > 0 && PairedReserve(l, b) > 0
    ensures var mid := Output(input, PairedReserve(l, a), InherentReserve(l, a));
            var out := Output(mid, InherentReserve(l, b), PairedReserve(l, b));
            KeepsProduct(l, CrossIn(l, payer, recipient, a, b, input).0, asset)
            <==> || asset != a
                 || input <= Balance(l, a, payer)
                 || (if a == b then out == 0 || recipient == PoolOf(l, b) else mid == 0)
  {
    var l' := CrossIn(l, payer, recipient, a, b, input).0;
    var mid := Output(input, PairedReserve(l, a), InherentReserve(l, a));
    var out := Output(mid, InherentReserve(l, b), PairedReserve(l, b));
    SwapKeepsProduct(input, PairedReserve(l, a), InherentReserve(l, a));
    SwapKeepsProduct(mid, InherentReserve(l, b), PairedReserve(l, b));
    CrossReserves(l, payer, recipient, a, b, input, mid, out, asset);
    if asset == a && a == b {
      SamePoolTwoHop(input, InherentReserve(l, a), PairedReserve(l, a));
      FactorOrder(InherentReserve(l, a), PairedReserve(l, a), PairedReserve(l', a));
    } else if asset == a {
      ProductIff(input, PairedReserve(l, a), InherentReserve(l, a), PairedReserve(l', a), InherentReserve(l', a));
    } else if asset == b {
      ProductIff(mid, InherentReserve(l, b), PairedReserve(l, b), InherentReserve(l', b), PairedReserve(l', b));
    }
  }

  lemma FactorOrder(x: nat, y: nat, y': nat)
    requires x > 0
    ensures x * y <= x * y' <==> y <= y'
  {
    if y <= y' {
      MulLe(y, y', x);
    } else {
      MulLt(y', y, x);
    }
  }

  /** The reserves of any pool after the three payments of a two-hop swap. */
  lemma CrossReserves(l: Ledger, payer: AccountId, recipient: AccountId, a: AssetId, b: AssetId, input: nat, mid: nat, out: nat, asset: AssetId)
    requires payer.User? && a != l.inherentAsset && b != l.inherentAsset && asset != l.inherentAsset
    ensures var l1 := Pay(l, payer, a, PoolOf(l, a), input);
            var l2 := Pay(l1, PoolOf(l, a), l.inherentAsset, PoolOf(l, b), mid);
            var l3 := Pay(l2, PoolOf(l, b), b, recipient, out);
            var paidIn, hop := Paid(input, Balance(l, a, payer)), Paid(mid, InherentReserve(l, a));
            var before := PairedReserve(l, asset) + (if asset == a then paidIn else 0);
            && l3.inherentAsset == l.inherentAsset
            && InherentReserve(l3, asset) == InherentReserve(l, asset)
                 - (if asset == a then hop else 0) + (if asset == b then hop else 0)
            && PairedReserve(l3, asset) == before
                 - (if asset == b && recipient != PoolOf(l, b) then Paid(out, before) else 0)
  {
    var i, pool := l.inherentAsset, PoolOf(l, asset);
    var l1 := Pay(l, payer, a, PoolOf(l, a), input);
    var l2 := Pay(l1, PoolOf(l, a), i, PoolOf(l, b), mid);
    PayMoves(l, payer, a, PoolOf(l, a), input, i, pool);
    PayMoves(l, payer, a, PoolOf(l, a), input, i, PoolOf(l, a));
    PayMoves(l, payer, a, PoolOf(l, a), input, asset, pool);
    PayMoves(l1, PoolOf(l, a), i, PoolOf(l, b), mid, i, pool);
    PayMoves(l1, PoolOf(l, a), i, PoolOf(l, b), mid, asset, pool);
    PayMoves(l2, PoolOf(l, b), b, recipient, out, i, pool);
    PayMoves(l2, PoolOf(l, b), b, recipient, out, asset, pool);
  }

  /** The paired asset of the pool that takes the payer's input. */
  function FirstPool(l: Ledger, assetIn: AssetId, assetOut: AssetId): AssetId {
    if assetIn == l.inherentAsset then assetOut else assetIn
  }

  /** Any exact-input swap, seen from any pool of the current inherent asset: only the pool that takes
      the input depends on the payer covering it. */
  lemma FundedSwapKeepsProducts(l: Ledger, payer: AccountId, recipient: AccountId, assetIn: AssetId, assetOut: AssetId, input: nat, asset: AssetId)
    requires payer.User? && asset != l.inherentAsset
    requires asset == FirstPool(l, assetIn, assetOut) ==> input <= Balance(l, assetIn, payer)
    ensures KeepsProduct(l, SwapExactInput(l, payer, recipient, assetIn, assetOut, input).0, asset)
  {
    ReservesGrow(l, l, asset);
    if assetIn == l.inherentAsset {
      if asset != assetOut {
        OtherPoolUntouched(l, payer, recipient, assetOut, input, asset);
      } else if InherentReserve(l, asset) > 0 && PairedReserve(l, asset) > 0 {
        InherentInKeepsProductIff(l, payer, recipient, asset, input);
      }
    } else if assetOut == l.inherentAsset {
      if asset != assetIn {
        OtherPoolUntouched(l, payer, recipient, assetIn, input, asset);
      } else if InherentReserve(l, asset) > 0 && PairedReserve(l, asset) > 0 {
        PairedInKeepsProductIff(l, payer, recipient, asset, input);
      }
    } else if CrossIn(l, payer, recipient, assetIn, assetOut, input).1 != EmptyPool {
      CrossInKeepsProductIff(l, payer, recipient, assetIn, assetOut, input, asset);
    }
  }

  // ---------- one pool, either direction ----------

  /** A swap with one pool: exactly one side is the inherent asset. */
  predicate Direct(l: Ledger, assetIn: AssetId, assetOut: AssetId) {
    assetIn != assetOut && (assetIn == l.inherentAsset || assetOut == l.inherentAsset)
  }

  /** What the pool of a direct swap holds of an asset. */
  function Reserve(l: Ledger, assetIn: AssetId, assetOut: AssetId, asset: AssetId): nat {
    Balance(l, asset, PoolOf(l, FirstPool(l, assetIn, assetOut)))
  }

  lemma DirectReserves(l: Ledger, payer: AccountId, recipient: AccountId, assetIn: AssetId, assetOut: AssetId, input: nat)
    requires payer.User? && Direct(l, assetIn, assetOut)
    requires Reserve(l, assetIn, assetOut, assetIn) > 0 && Reserve(l, assetIn, assetOut, assetOut) > 0
    ensures var (l', quote) := SwapExactInput(l, payer, recipient, assetIn, assetOut, input);
            var out := Output(input, Reserve(l, assetIn, assetOut, assetIn), Reserve(l, assetIn, assetOut, assetOut));
            && quote == Amount(out) && out < Reserve(l, assetIn, assetOut, assetOut)
            && l'.inherentAsset == l.inherentAsset
            && Reserve(l', assetIn, assetOut, assetIn) == Reserve(l, assetIn, assetOut, assetIn)
                 + (if input <= Balance(l, assetIn, payer) then input else 0)
            && Reserve(l', assetIn, assetOut, assetOut) == Reserve(l, assetIn, assetOut, assetOut)
                 - (if recipient == PoolOf(l, FirstPool(l, assetIn, assetOut)) then 0 else out)
  {
    if assetIn == l.inherentAsset {
      InherentInReserves(l, payer, recipient, assetOut, input);
    } else {
      PairedInReserves(l, payer, recipient, assetIn, input);
    }
  }

  /** A funded swap one way and the whole output back, whichever side comes first, returns at most
      what was put in. */
  lemma SwapRoundTrip(l: Ledger, payer: AccountId, assetIn: AssetId, assetOut: AssetId, input: nat)
    requires payer.User? && Direct(l, assetIn, assetOut) && input <= Balance(l, assetIn, payer)
    requires Reserve(l, assetIn, assetOut, assetIn) > 0 && Reserve(l, assetIn, assetOut, assetOut) > 0
    ensures var (l1, q1) := SwapExactInput(l, payer, payer, assetIn, assetOut, input);
            && q1.Amount?
            && var (l2, q2) := SwapExactInput(l1, payer, payer, assetOut, assetIn, q1.n);
               q2.Amount? && q2.n <= input
  {
    var (l1, q1) := SwapExactInput(l, payer, payer, assetIn, assetOut, input);
    DirectReserves(l, payer, payer, assetIn, assetOut, input);
    DirectReserves(l1, payer, payer, assetOut, assetIn, q1.n);
    RoundTripLoses(input, Reserve(l, assetIn, assetOut, assetIn), Reserve(l, assetIn, assetOut, assetOut));
  }

  // A series of same-direction swaps by any payers on one pool.

  datatype Trade = Trade(payer: AccountId, recipient: AccountId, input: nat)

  function Inputs(trades: seq<Trade>): seq<nat> {
    if trades == [] then [] else Inputs(trades[..|trades| - 1]) + [trades[|trades| - 1].input]
  }

  function AfterTrades(l: Ledger, assetIn: AssetId, assetOut: AssetId, trades: seq<Trade>): Ledger {
    if trades == [] then l
    else
      var t := trades[|trades| - 1];
      SwapExactInput(AfterTrades(l, assetIn, assetOut, trades[..|trades| - 1]), t.payer, t.recipient, assetIn, assetOut, t.input).0
  }

  /** Each payer is a user who covers the input when the trade happens, and nobody trades into the pool's own account. */
  predicate CoveredTrades(l: Ledger, assetIn: AssetId, assetOut: AssetId, trades: seq<Trade>) {
    trades == [] ||
    (var t, front := trades[|trades| - 1], trades[..|trades| - 1];
     && CoveredTrades(l, assetIn, assetOut, front)
     && t.payer.User? && t.recipient != PoolOf(l, FirstPool(l, assetIn, assetOut))
     && t.input <= Balance(AfterTrades(l, assetIn, assetOut, front), assetIn, t.payer))
  }

  /** One more covered trade, on a pool that started with reserves x and y. */
  lemma TradeFollowsReserves(l: Ledger, assetIn: AssetId, assetOut: AssetId, t: Trade, inputs: seq<nat>, x: nat, y: nat)
    requires t.payer.User? && Direct(l, assetIn, assetOut) && t.input <= Balance(l, assetIn, t.payer)
    requires t.recipient != PoolOf(l, FirstPool(l, assetIn, assetOut))
    requires x > 0 && Reserve(l, assetIn, assetOut, assetIn) == x + Total(inputs)
    requires Reserve(l, assetIn, assetOut, assetOut) == OutReserve(inputs, x, y) > 0
    ensures var l' := SwapExactInput(l, t.payer, t.recipient, assetIn, assetOut, t.input).0;
            && l'.inherentAsset == l.inherentAsset
            && Reserve(l', assetIn, assetOut, assetIn) == x + Total(inputs + [t.input])
            && Reserve(l', assetIn, assetOut, assetOut) == OutReserve(inputs + [t.input], x, y) > 0
  {
    DirectReserves(l, t.payer, t.recipient, assetIn, assetOut, t.input);
    OneMoreInput(inputs, t.input, x, y);
  }

  lemma {:induction false} TradesFollowReserves(l: Ledger, assetIn: AssetId, assetOut: AssetId, trades: seq<Trade>)
    requires Direct(l, assetIn, assetOut) && CoveredTrades(l, assetIn, assetOut, trades)
    requires Reserve(l, assetIn, assetOut, assetIn) > 0 && Reserve(l, assetIn, assetOut, assetOut) > 0
    ensures var l' := AfterTrades(l, assetIn, assetOut, trades);
            && l'.inherentAsset == l.inherentAsset
            && Reserve(l', assetIn, assetOut, assetIn) == Reserve(l, assetIn, assetOut, assetIn) + Total(Inputs(trades))
            && Reserve(l', assetIn, assetOut, assetOut)
               == OutReserve(Inputs(trades), Reserve(l, assetIn, assetOut, assetIn), Reserve(l, assetIn, assetOut, assetOut)) > 0
  {
    if trades != [] {
      var front, t := trades[..|trades| - 1], trades[|trades| - 1];
      TradesFollowReserves(l, assetIn, assetOut, front);
      TradeFollowsReserves(AfterTrades(l, assetIn, assetOut, front), assetIn, assetOut, t, Inputs(front),
                           Reserve(l, assetIn, assetOut, assetIn), Reserve(l, assetIn, assetOut, assetOut));
    }
  }

  /** On the ledger, in either direction: however the input is split over covered trades, the pool
      pays out at most what one swap of the sum would have paid out. */
  lemma TradesNeverBeatOne(l: Ledger, assetIn: AssetId, assetOut: AssetId, trades: seq<Trade>)
    requires Direct(l, assetIn, assetOut) && CoveredTrades(l, assetIn, assetOut, trades)
    requires Reserve(l, assetIn, assetOut, assetIn) > 0 && Reserve(l, assetIn, assetOut, assetOut) > 0
    ensures Reserve(l, assetIn, assetOut, assetOut) - Reserve(AfterTrades(l, assetIn, assetOut, trades), assetIn, assetOut, assetOut)
            <= Output(Total(Inputs(trades)), Reserve(l, assetIn, assetOut, assetIn), Reserve(l, assetIn, assetOut, assetOut))
  {
    TradesFollowReserves(l, assetIn, assetOut, trades);
    SplittingNeverBeatsOneTrade(Inputs(trades), Reserve(l, assetIn, assetOut, assetIn), Reserve(l, assetIn, assetOut, assetOut));
  }

  // ---------- exact-output swaps ----------

  /** What the price function answers for an output, and what the two payments then move: a charge
      the payer does not cover is not paid, an output beyond the reserve is not paid out. */
  lemma InherentForReserves(l: Ledger, payer: AccountId, recipient: AccountId, paired: AssetId, output: nat)
    requires payer.User? && paired != l.inherentAsset
    requires InherentReserve(l, paired) > 0 && PairedReserve(l, paired) > 0
    ensures var (l', quote) := InherentFor(l, payer, recipient, paired, output);
            var charged := Charge(output, PairedReserve(l, paired));
            && quote == Amount(charged)
            && l'.inherentAsset == l.inherentAsset
            && InherentReserve(l', paired) == InherentReserve(l, paired) + Paid(charged, Balance(l, l.inherentAsset, payer))
            && PairedReserve(l', paired) == PairedReserve(l, paired)
                 - (if recipient == PoolOf(l, paired) then 0 else Paid(output, PairedReserve(l, paired)))
  {
    var pool, charged := PoolOf(l, paired), Charge(output, PairedReserve(l, paired));
    var l1 := Pay(l, payer, l.inherentAsset, pool, charged);
    PayMoves(l, payer, l.inherentAsset, pool, charged, l.inherentAsset, pool);
    PayMoves(l, payer, l.inherentAsset, pool, charged, paired, pool);
    PayMoves(l1, pool, paired, recipient, output, l.inherentAsset, pool);
    PayMoves(l1, pool, paired, recipient, output, paired, pool);
  }

  lemma PairedForReserves(l: Ledger, payer: AccountId, recipient: AccountId, paired: AssetId, output: nat)
    requires payer.User? && paired != l.inherentAsset
    requires InherentReserve(l, paired) > 0 && PairedReserve(l, paired) > 0
    ensures var (l', quote) := PairedFor(l, payer, recipient, paired, output);
            var charged := Charge(output, InherentReserve(l, paired));
            && quote == Amount(charged)
            && l'.inherentAsset == l.inherentAsset
            && PairedReserve(l', paired) == PairedReserve(l, paired) + Paid(charged, Balance(l, paired, payer))
            && InherentReserve(l', paired) == InherentReserve(l, paired)
                 - (if recipient == PoolOf(l, paired) then 0 else Paid(output, InherentReserve(l, paired)))
  {
    var pool, charged := PoolOf(l, paired), Charge(output, InherentReserve(l, paired));
    var l1 := Pay(l, payer, paired, pool, charged);
    PayMoves(l, payer, paired, pool, charged, l.inherentAsset, pool);
    PayMoves(l, payer, paired, pool, charged, paired, pool);
    PayMoves(l1, pool, l.inherentAsset, recipient, output, l.inherentAsset, pool);
    PayMoves(l1, pool, l.inherentAsset, recipient, output, paired, pool);
  }

  /** What the price function answers for an output. */
  function Charge(output: nat, reserve: nat): nat {
    if reserve <= output then U128_MAX else output
  }

  /** An exact-output swap is harmless to a pool when nothing leaves it, or when the payer covers the
      charge and the output reserve is the deeper one by at least the output. */
  predicate HarmlessOutput(output: nat, funds: nat, x: nat, y: nat, returned: bool) {
    || returned || output == 0 || y < output
    || (output < y && output <= funds && x + output <= y)
  }

  lemma HarmlessIff(output: nat, funds: nat, x: nat, y: nat, returned: bool, x': nat, y': nat)
    requires x > 0 && y > 0
    requires x' == x + Paid(Charge(output, y), funds)
    requires y' == y - (if returned then 0 else Paid(output, y))
    ensures x * y <= x' * y' && y' > 0 <==> HarmlessOutput(output, funds, x, y, returned)
    ensures y' == 0 <==> output == y && !returned
  {
    if y' == y {
      MulLe(x, x', y);
    } else if output < y {
      ExactOutputKeepsProductIff(output, x, y);
      MulLt(y', y, x);
    }
  }

  /** For every non-empty pool, payer, recipient and output: when the swap keeps the pool's product.
      Asking for exactly the whole reserve always empties it, whether or not the payer pays. */
  lemma InherentForKeepsProductIff(l: Ledger, payer: AccountId, recipient: AccountId, paired: AssetId, output: nat)
    requires payer.User? && paired != l.inherentAsset
    requires InherentReserve(l, paired) > 0 && PairedReserve(l, paired) > 0
    ensures var l' := InherentFor(l, payer, recipient, paired, output).0;
            && (KeepsProduct(l, l', paired)
                <==> HarmlessOutput(output, Balance(l, l.inherentAsset, payer), InherentReserve(l, paired), PairedReserve(l, paired),
                                    recipient == PoolOf(l, paired)))
            && (PairedReserve(l', paired) == 0 <==> output == PairedReserve(l, paired) && recipient != PoolOf(l, paired))
  {
    var l' := InherentFor(l, payer, recipient, paired, output).0;
    InherentForReserves(l, payer, recipient, paired, output);
    HarmlessIff(output, Balance(l, l.inherentAsset, payer), InherentReserve(l, paired), PairedReserve(l, paired),
                recipient == PoolOf(l, paired), InherentReserve(l', paired), PairedReserve(l', paired));
  }

  lemma PairedForKeepsProductIff(l: Ledger, payer: AccountId, recipient: AccountId, paired: AssetId, output: nat)
    requires payer.User? && paired != l.inherentAsset
    requires InherentReserve(l, paired) > 0 && PairedReserve(l, paired) > 0
    ensures var l' := PairedFor(l, payer, recipient, paired, output).0;
            && (KeepsProduct(l, l', paired)
                <==> HarmlessOutput(output, Balance(l, paired, payer), PairedReserve(l, paired), InherentReserve(l, paired),
                                    recipient == PoolOf(l, paired)))
            && (InherentReserve(l', paired) == 0 <==> output == InherentReserve(l, paired) && recipient != PoolOf(l, paired))
  {
    var l' := PairedFor(l, payer, recipient, paired, output).0;
    PairedForReserves(l, payer, recipient, paired, output);
    HarmlessIff(output, Balance(l, paired, payer), PairedReserve(l, paired), InherentReserve(l, paired),
                recipient == PoolOf(l, paired), PairedReserve(l', paired), InherentReserve(l', paired));
  }

  /** When a two-hop exact-output swap is harmless to a pool it touches. The first pool pays the middle
      amount against the payer's charge, the second the output against the middle amount; on one pool
      the middle amount stays, and the output is only harmless against a charge that is paid. */
  predicate HarmlessHops(l: Ledger, payer: AccountId, recipient: AccountId, a: AssetId, b: AssetId, output: nat, asset: AssetId) {
    var mid, funds := Charge(output, PairedReserve(l, b)), Balance(l, a, payer);
    && (asset == a != b ==> HarmlessOutput(mid, funds, PairedReserve(l, a), InherentReserve(l, a), false))
    && (asset == b != a ==> HarmlessOutput(output, InherentReserve(l, a), InherentReserve(l, b), PairedReserve(l, b), recipient == PoolOf(l, b)))
    && (asset == a == b ==> || recipient == PoolOf(l, b) || output == 0 || PairedReserve(l, a) < output
                            || Charge(mid, InherentReserve(l, a)) <= funds)
  }

  lemma SamePoolHopsIff(h: nat, p: nat, p': nat, output: u128, charged: nat, funds: nat, returned: bool)
    requires h > 0 && p > 0 && charged == Charge(Charge(output, p), h)
    requires var before := p + Paid(charged, funds);
             p' == before - (if returned then 0 else Paid(output, before))
    ensures h * p <= h * p' && p' > 0 <==> returned || output == 0 || p < output || charged <= funds
  {
    FactorOrder(h, p, p');
  }

  lemma CrossForReserves(l: Ledger, payer: AccountId, recipient: AccountId, a: AssetId, b: AssetId, output: nat, asset: AssetId)
    requires payer.User? && a != l.inherentAsset && b != l.inherentAsset && asset != l.inherentAsset
    requires InherentReserve(l, a) > 0 && PairedReserve(l, a) > 0 && InherentReserve(l, b) > 0 && PairedReserve(l, b) > 0
    ensures var l', mid := CrossFor(l, payer, recipient, a, b, output).0, Charge(output, PairedReserve(l, b));
            var paidIn, hop := Paid(Charge(mid, InherentReserve(l, a)), Balance(l, a, payer)), Paid(mid, InherentReserve(l, a));
            var before := PairedReserve(l, asset) + (if asset == a then paidIn else 0);
            && l'.inherentAsset == l.inherentAsset
            && InherentReserve(l', asset) == InherentReserve(l, asset)
                 - (if asset == a then hop else 0) + (if asset == b then hop else 0)
            && PairedReserve(l', asset) == before
                 - (if asset == b && recipient != PoolOf(l, b) then Paid(output, before) else 0)
  {
    var mid := Charge(output, PairedReserve(l, b));
    CrossReserves(l, payer, recipient, a, b, Charge(mid, InherentReserve(l, a)), mid, output, asset);
  }

  lemma CrossForKeepsProductIff(l: Ledger, payer: AccountId, recipient: AccountId, a: AssetId, b: AssetId, output: u128, asset: AssetId)
    requires payer.User? && a != l.inherentAsset && b != l.inherentAsset && asset != l.inherentAsset
    requires InherentReserve(l, a) > 0 && PairedReserve(l, a) > 0 && InherentReserve(l, b) > 0 && PairedReserve(l, b) > 0
    ensures KeepsProduct(l, CrossFor(l, payer, recipient, a, b, output).0, asset)
            <==> HarmlessHops(l, payer, recipient, a, b, output, asset)
  {
    var l' := CrossFor(l, payer, recipient, a, b, output).0;
    CrossForReserves(l, payer, recipient, a, b, output, asset);
    HopsIff(l, l', payer, recipient, a, b, output, asset);
  }

  lemma HopsIff(l: Ledger, l': Ledger, payer: AccountId, recipient: AccountId, a: AssetId, b: AssetId, output: u128, asset: AssetId)
    requires InherentReserve(l, a) > 0 && PairedReserve(l, a) > 0 && InherentReserve(l, b) > 0 && PairedReserve(l, b) > 0
    requires l'.inherentAsset == l.inherentAsset
    requires var mid := Charge(output, PairedReserve(l, b));
             var paidIn, hop := Paid(Charge(mid, InherentReserve(l, a)), Balance(l, a, payer)), Paid(mid, InherentReserve(l, a));
             var before := PairedReserve(l, asset) + (if asset == a then paidIn else 0);
             && InherentReserve(l', asset) == InherentReserve(l, asset)
                  - (if asset == a then hop else 0) + (if asset == b then hop else 0)
             && PairedReserve(l', asset) == before
                  - (if asset == b && recipient != PoolOf(l, b) then Paid(output, before) else 0)
    ensures KeepsProduct(l, l', asset) <==> HarmlessHops(l, payer, recipient, a, b, output, asset)
  {
    var mid, funds := Charge(output, PairedReserve(l, b)), Balance(l, a, payer);
    if asset == a && a == b {
      SamePoolHopsIff(InherentReserve(l, a), PairedReserve(l, a), PairedReserve(l', a), output, Charge(mid, InherentReserve(l, a)), funds, recipient == PoolOf(l, b));
    } else if asset == a {
      HarmlessIff(mid, funds, PairedReserve(l, a), InherentReserve(l, a), false, PairedReserve(l', a), InherentReserve(l', a));
    } else if asset == b {
      HarmlessIff(output, InherentReserve(l, a), InherentReserve(l, b), PairedReserve(l, b), recipient == PoolOf(l, b),
                  InherentReserve(l', b), PairedReserve(l', b));
    }
  }

  /** An exact-output swap between other assets only adds to an observed pool. */
  lemma OutputSwapElsewhere(l: Ledger, payer: AccountId, recipient: AccountId, assetIn: AssetId, assetOut: AssetId, output: nat, asset: AssetId)
    requires payer.User? && asset != assetIn && asset != assetOut
    ensures KeepsProduct(l, SwapExactOutput(l, payer, recipient, assetIn, assetOut, output).0, asset)
  {
    ReservesGrow(l, l, asset);
    var (l', quote) := SwapExactOutput(l, payer, recipient, assetIn, assetOut, output);
    if quote != EmptyPool {
      if assetIn == l.inherentAsset || assetOut == l.inherentAsset {
        TwoPaymentsOnlyAdd(l, payer, assetIn, PoolOf(l, FirstPool(l, assetIn, assetOut)), quote.n, assetOut, recipient, output, asset);
      } else {
        var mid := InputAtOutput(output, InherentReserve(l, assetOut), PairedReserve(l, assetOut)).n;
        var l1 := Pay(l, payer, assetIn, PoolOf(l, assetIn), quote.n);
        PaymentOnlyAdds(l, payer, assetIn, PoolOf(l, assetIn), quote.n, asset);
        TwoPaymentsOnlyAdd(l1, PoolOf(l, assetIn), l.inherentAsset, PoolOf(l, assetOut), mid, assetOut, recipient, output, asset);
        PaymentOnlyAdds(l1, PoolOf(l, assetIn), l.inherentAsset, PoolOf(l, assetOut), mid, asset);
        var l2 := Pay(l1, PoolOf(l, assetIn), l.inherentAsset, PoolOf(l, assetOut), mid);
        PaymentOnlyAdds(l2, PoolOf(l, assetOut), assetOut, recipient, output, asset);
        ReservesGrow(l, l', asset);
      }
    }
  }

  /** Exact-output swaps that keep an observed pool's product: between other assets, or harmless to it. */
  predicate HarmlessSwap(l: Ledger, payer: AccountId, recipient: AccountId, assetIn: AssetId, assetOut: AssetId, output: nat, asset: AssetId) {
    || (asset != assetIn && asset != assetOut)
    || (if Direct(l, assetIn, assetOut)
        then HarmlessOutput(output, Balance(l, assetIn, payer), Reserve(l, assetIn, assetOut, assetIn), Reserve(l, assetIn, assetOut, assetOut),
                            recipient == PoolOf(l, FirstPool(l, assetIn, assetOut)))
        else output <= U128_MAX && HarmlessHops(l, payer, recipient, assetIn, assetOut, output, asset))
  }

  lemma HarmlessSwapKeepsProducts(l: Ledger, payer: AccountId, recipient: AccountId, assetIn: AssetId, assetOut: AssetId, output: nat, asset: AssetId)
    requires payer.User? && asset != l.inherentAsset
    requires HarmlessSwap(l, payer, recipient, assetIn, assetOut, output, asset)
    ensures KeepsProduct(l, SwapExactOutput(l, payer, recipient, assetIn, assetOut, output).0, asset)
  {
    ReservesGrow(l, l, asset);
    if asset != assetIn && asset != assetOut {
      OutputSwapElsewhere(l, payer, recipient, assetIn, assetOut, output, asset);
    } else if !Direct(l, assetIn, assetOut) {
      if CrossFor(l, payer, recipient, assetIn, assetOut, output).1 != EmptyPool {
        CrossForKeepsProductIff(l, payer, recipient, assetIn, assetOut, output, asset);
      }
    } else if InherentReserve(l, asset) > 0 && PairedReserve(l, asset) > 0 {
      if assetIn == l.inherentAsset {
        InherentForKeepsProductIff(l, payer, recipient, asset, output);
      } else {
        PairedForKeepsProductIff(l, payer, recipient, asset, output);
      }
    }
  }

  // ---------- share accounting ----------

  ghost function AccountShares(sh: Shares, asset: AssetId): map<(AssetId, AccountId), nat> {
    map k | k in sh.accounts && k.0 == asset :: sh.accounts[k]
  }

  /** The account liquidities of each pool add up to its total liquidity. */
  ghost predicate SharesAddUp(sh: Shares) {
    forall asset :: Sum(AccountShares(sh, asset)) == TotalShares(sh, asset)
  }

  lemma NoSharesAddUp()
    ensures SharesAddUp(NoShares)
  {
  }

  lemma SetSharesSum(sh: Shares, asset: AssetId, account: AccountId, n: nat, other: AssetId)
    ensures var sh' := sh.(accounts := sh.accounts[(asset, account) := n]);
            Sum(AccountShares(sh', other))
            == if other == asset then Sum(AccountShares(sh, asset)) + n - SharesOf(sh, asset, account)
               else Sum(AccountShares(sh, other))
  {
    var sh' := sh.(accounts := sh.accounts[(asset, account) := n]);
    if other == asset {
      assert AccountShares(sh', asset) == AccountShares(sh, asset)[(asset, account) := n];
      SumUpdate(AccountShares(sh, asset), (asset, account), n);
    } else {
      assert AccountShares(sh', other) == AccountShares(sh, other);
    }
  }

  lemma ShareWithinTotal(sh: Shares, asset: AssetId, account: AccountId)
    requires SharesAddUp(sh)
    ensures SharesOf(sh, asset, account) <= TotalShares(sh, asset)
  {
    if (asset, account) in sh.accounts {
      SumAtLeast(AccountShares(sh, asset), (asset, account));
    }
    assert Sum(AccountShares(sh, asset)) == TotalShares(sh, asset);
  }

  /** Writing an account's shares and moving the total by the same difference keeps the accounts adding up. */
  lemma ShareUpdateAddsUp(sh: Shares, sh': Shares, asset: AssetId, account: AccountId, n: nat)
    requires SharesAddUp(sh)
    requires sh'.accounts == sh.accounts[(asset, account) := n]
    requires TotalShares(sh', asset) == TotalShares(sh, asset) + n - SharesOf(sh, asset, account)
    requires forall a | a != asset :: TotalShares(sh', a) == TotalShares(sh, a)
    ensures SharesAddUp(sh')
  {
    forall a ensures Sum(AccountShares(sh', a)) == TotalShares(sh', a) {
      SetSharesSum(sh, asset, account, n, a);
      assert AccountShares(sh', a) == AccountShares(sh.(accounts := sh.accounts[(asset, account) := n]), a);
      assert Sum(AccountShares(sh, a)) == TotalShares(sh, a);
    }
  }

  /** The overwriting write of a first injection loses nothing: without a total, nobody has shares. */
  lemma AddLiquidityAddsUp(l: Ledger, sh: Shares, account: AccountId, asset: AssetId, inherent: nat, paired: nat)
    requires SharesAddUp(sh)
    ensures var (b, done) := AddLiquidity(l, sh, account, asset, inherent, paired);
            && SharesAddUp(b.shares)
            && (done ==> && MintOf(l, sh, asset, inherent).Mints?
                         && SharesOf(b.shares, asset, account) == SharesOf(sh, asset, account) + MintOf(l, sh, asset, inherent).n
                         && TotalShares(b.shares, asset) == TotalShares(sh, asset) + MintOf(l, sh, asset, inherent).n)
            && (done <==> TotalShares(sh, asset) == 0 || InherentReserve(l, asset) > 0)
  {
    var (b, done) := AddLiquidity(l, sh, account, asset, inherent, paired);
    ShareWithinTotal(sh, asset, account);
    if done {
      ShareUpdateAddsUp(sh, b.shares, asset, account, SharesOf(sh, asset, account) + MintOf(l, sh, asset, inherent).n);
    }
  }

  /** A removal is done exactly when the account holds what it burns and there is liquidity at all;
      the total's decrement is never what stops it. */
  lemma RemoveLiquidityAddsUp(l: Ledger, sh: Shares, account: AccountId, asset: AssetId, liquidity: nat)
    requires SharesAddUp(sh)
    ensures var (b, done) := RemoveLiquidity(l, sh, account, asset, liquidity);
            && (done ==> SharesAddUp(b.shares)
                         && TotalShares(b.shares, asset) == TotalShares(sh, asset) - liquidity)
            && (done <==> TotalShares(sh, asset) > 0 && liquidity <= SharesOf(sh, asset, account))
  {
    var (b, done) := RemoveLiquidity(l, sh, account, asset, liquidity);
    ShareWithinTotal(sh, asset, account);
    if done {
      ShareUpdateAddsUp(sh, b.shares, asset, account, SharesOf(sh, asset, account) - liquidity);
    }
  }

  // ---------- share value ----------

  /** A pool with liquidity holds some of both assets. */
  ghost predicate Sound(l: Ledger, sh: Shares, asset: AssetId) {
    TotalShares(sh, asset) > 0 ==> InherentReserve(l, asset) > 0 && PairedReserve(l, asset) > 0
  }

  /** Reserve product per squared share is no lower afterwards, and the pool stays sound. */
  ghost predicate KeepsValue(l: Ledger, sh: Shares, l': Ledger, sh': Shares, asset: AssetId) {
    && l'.inherentAsset == l.inherentAsset
    && Sound(l', sh', asset)
    && (TotalShares(sh, asset) > 0 ==>
        NotWorse(InherentReserve(l, asset), PairedReserve(l, asset), TotalShares(sh, asset),
                 InherentReserve(l', asset), PairedReserve(l', asset), TotalShares(sh', asset)))
  }

  lemma ProductKeepsShareValue(l: Ledger, sh: Shares, l': Ledger, asset: AssetId)
    requires Sound(l, sh, asset) && KeepsProduct(l, l', asset)
    ensures KeepsValue(l, sh, l', sh, asset)
  {
  }

  /** The deposits that arrive: each only if the account covers it. */
  lemma AdditionReserves(l: Ledger, sh: Shares, account: AccountId, asset: AssetId, inherent: nat, paired: nat)
    requires account.User? && asset != l.inherentAsset
    ensures var l' := AddLiquidity(l, sh, account, asset, inherent, paired).0.ledger;
            && l'.inherentAsset == l.inherentAsset
            && InherentReserve(l', asset) == InherentReserve(l, asset) + Paid(inherent, Balance(l, l.inherentAsset, account))
            && PairedReserve(l', asset) == PairedReserve(l, asset) + Paid(paired, Balance(l, asset, account))
  {
    var i, pool := l.inherentAsset, PoolOf(l, asset);
    var l1 := Pay(l, account, i, pool, inherent);
    PayMoves(l, account, i, pool, inherent, i, pool);
    PayMoves(l, account, i, pool, inherent, asset, pool);
    PayMoves(l, account, i, pool, inherent, asset, account);
    PayMoves(l1, account, asset, pool, paired, i, pool);
    PayMoves(l1, account, asset, pool, paired, asset, pool);
  }

  /** When an addition lowers no share's value, read off the state before it: what arrives makes up for
      what is minted, which follows the amount offered and not the amount paid. An opening must leave
      something of both assets behind the shares it mints. */
  predicate HarmlessAddition(l: Ledger, sh: Shares, account: AccountId, asset: AssetId, inherent: nat, paired: nat) {
    var h, p, t := InherentReserve(l, asset), PairedReserve(l, asset), TotalShares(sh, asset);
    var h' := h + Paid(inherent, Balance(l, l.inherentAsset, account));
    var p' := p + Paid(paired, Balance(l, asset, account));
    if t == 0 then inherent == 0 || (h' > 0 && p' > 0)
    else h > 0 && NotWorse(h, p, t, h', p', t + Minted(t, inherent, h))
  }

  /** For every payer on a sound pool, covered or not: the addition is done, and this is exactly when
      the pool stays sound and no share loses value. */
  lemma AdditionKeepsValueIff(l: Ledger, sh: Shares, account: AccountId, asset: AssetId, inherent: nat, paired: nat)
    requires account.User? && asset != l.inherentAsset && Sound(l, sh, asset)
    ensures var (b, done) := AddLiquidity(l, sh, account, asset, inherent, paired);
            && done
            && (KeepsValue(l, sh, b.ledger, b.shares, asset) <==> HarmlessAddition(l, sh, account, asset, inherent, paired))
  {
    AdditionReserves(l, sh, account, asset, inherent, paired);
  }

  /** Both deposits covered, and at least the pool ratio: such an addition is harmless. */
  lemma FairAdditionIsHarmless(l: Ledger, sh: Shares, account: AccountId, asset: AssetId, inherent: nat, paired: nat)
    requires Sound(l, sh, asset)
    requires inherent <= Balance(l, l.inherentAsset, account) && paired <= Balance(l, asset, account)
    requires if TotalShares(sh, asset) == 0 then inherent > 0 ==> paired > 0
             else inherent * PairedReserve(l, asset) <= paired * InherentReserve(l, asset)
    ensures HarmlessAddition(l, sh, account, asset, inherent, paired)
  {
    if TotalShares(sh, asset) > 0 {
      MintKeepsValue(InherentReserve(l, asset), PairedReserve(l, asset), TotalShares(sh, asset), inherent, paired);
    }
  }

  /** With neither deposit covered, an addition to a pool with shares is harmless exactly when it mints
      nothing. */
  lemma UncoveredAdditionIff(l: Ledger, sh: Shares, account: AccountId, asset: AssetId, inherent: nat, paired: nat)
    requires Sound(l, sh, asset) && TotalShares(sh, asset) > 0
    requires Balance(l, l.inherentAsset, account) < inherent && Balance(l, asset, account) < paired
    ensures HarmlessAddition(l, sh, account, asset, inherent, paired)
            <==> Minted(TotalShares(sh, asset), inherent, InherentReserve(l, asset)) == 0
  {
    MoreSharesOnly(InherentReserve(l, asset), PairedReserve(l, asset), TotalShares(sh, asset),
                   Minted(TotalShares(sh, asset), inherent, InherentReserve(l, asset)));
  }

  lemma RemovalReserves(l: Ledger, sh: Shares, account: AccountId, asset: AssetId, liquidity: nat)
    requires account.User? && asset != l.inherentAsset && TotalShares(sh, asset) > 0 && liquidity <= TotalShares(sh, asset)
    ensures var l' := RemoveLiquidity(l, sh, account, asset, liquidity).0.ledger;
            var t := TotalShares(sh, asset);
            && Burned(InherentReserve(l, asset), liquidity, t) <= InherentReserve(l, asset)
            && Burned(PairedReserve(l, asset), liquidity, t) <= PairedReserve(l, asset)
            && l'.inherentAsset == l.inherentAsset
            && InherentReserve(l', asset) == InherentReserve(l, asset) - Burned(InherentReserve(l, asset), liquidity, t)
            && PairedReserve(l', asset) == PairedReserve(l, asset) - Burned(PairedReserve(l, asset), liquidity, t)
  {
    var i, pool, t := l.inherentAsset, PoolOf(l, asset), TotalShares(sh, asset);
    var h, p := Burned(InherentReserve(l, asset), liquidity, t), Burned(PairedReserve(l, asset), liquidity, t);
    BurnKeepsValue(InherentReserve(l, asset), PairedReserve(l, asset), t, liquidity);
    var l1 := Pay(l, pool, i, account, h);
    PayMoves(l, pool, i, account, h, i, pool);
    PayMoves(l, pool, i, account, h, asset, pool);
    PayMoves(l1, pool, asset, account, p, i, pool);
    PayMoves(l1, pool, asset, account, p, asset, pool);
  }

  /** A removal that is done, whatever its size, never lowers what the remaining shares are worth. */
  lemma RemovalKeepsValue(l: Ledger, sh: Shares, account: AccountId, asset: AssetId, liquidity: nat)
    requires account.User? && asset != l.inherentAsset && Sound(l, sh, asset) && SharesAddUp(sh)
    requires RemoveLiquidity(l, sh, account, asset, liquidity).1
    ensures var b := RemoveLiquidity(l, sh, account, asset, liquidity).0;
            KeepsValue(l, sh, b.ledger, b.shares, asset)
  {
    RemoveLiquidityAddsUp(l, sh, account, asset, liquidity);
    ShareWithinTotal(sh, asset, account);
    RemovalReserves(l, sh, account, asset, liquidity);
    BurnKeepsValue(InherentReserve(l, asset), PairedReserve(l, asset), TotalShares(sh, asset), liquidity);
  }

  /** Liquidity calls on one pool leave every other pool's shares and at least its reserves. */
  lemma AdditionElsewhere(l: Ledger, sh: Shares, account: AccountId, asset: AssetId, inherent: nat, paired: nat, other: AssetId)
    requires account.User? && other != asset && Sound(l, sh, other)
    ensures var b := AddLiquidity(l, sh, account, asset, inherent, paired).0;
            KeepsValue(l, sh, b.ledger, b.shares, other)
  {
    var b := AddLiquidity(l, sh, account, asset, inherent, paired).0;
    var l1 := Pay(l, account, l.inherentAsset, PoolOf(l, asset), inherent);
    PaymentOnlyAdds(l, account, l.inherentAsset, PoolOf(l, asset), inherent, other);
    PaymentOnlyAdds(l1, account, asset, PoolOf(l, asset), paired, other);
    GrowthKeepsValue(l, sh, b.ledger, b.shares, other);
  }

  lemma RemovalElsewhere(l: Ledger, sh: Shares, account: AccountId, asset: AssetId, liquidity: nat, other: AssetId)
    requires account.User? && other != asset && Sound(l, sh, other)
    ensures var b := RemoveLiquidity(l, sh, account, asset, liquidity).0;
            KeepsValue(l, sh, b.ledger, b.shares, other)
  {
    var b := RemoveLiquidity(l, sh, account, asset, liquidity).0;
    if TotalShares(sh, asset) > 0 {
      var t, pool := TotalShares(sh, asset), PoolOf(l, asset);
      var h, p := Burned(InherentReserve(l, asset), liquidity, t), Burned(PairedReserve(l, asset), liquidity, t);
      var l1 := Pay(l, pool, l.inherentAsset, account, h);
      PaymentOnlyAdds(l, pool, l.inherentAsset, account, h, other);
      PaymentOnlyAdds(l1, pool, asset, account, p, other);
    }
    GrowthKeepsValue(l, sh, b.ledger, b.shares, other);
  }

  lemma GrowthKeepsValue(l: Ledger, sh: Shares, l': Ledger, sh': Shares, asset: AssetId)
    requires Sound(l, sh, asset) && l'.inherentAsset == l.inherentAsset
    requires TotalShares(sh', asset) == TotalShares(sh, asset)
    requires InherentReserve(l, asset) <= InherentReserve(l', asset)
    requires PairedReserve(l, asset) <= PairedReserve(l', asset)
    ensures KeepsValue(l, sh, l', sh', asset)
  {
    ReservesGrow(l, l', asset);
    ProductKeepsValue(InherentReserve(l, asset), PairedReserve(l, asset), TotalShares(sh, asset),
                      InherentReserve(l', asset), PairedReserve(l', asset));
  }

  /** Adding to a pool and at once burning exactly the minted shares returns at most what was added
      of the inherent asset. */
  lemma AddThenRemove(l: Ledger, sh: Shares, account: AccountId, asset: AssetId, inherent: nat, paired: nat)
    requires account.User? && asset != l.inherentAsset && SharesAddUp(sh)
    requires TotalShares(sh, asset) > 0 && InherentReserve(l, asset) > 0
    requires inherent <= Balance(l, l.inherentAsset, account) && paired <= Balance(l, asset, account)
    ensures var (b, added) := AddLiquidity(l, sh, account, asset, inherent, paired);
            var minted := Minted(TotalShares(sh, asset), inherent, InherentReserve(l, asset));
            var (b', removed) := RemoveLiquidity(b.ledger, b.shares, account, asset, minted);
            && added && removed
            && InherentReserve(l, asset) <= InherentReserve(b'.ledger, asset)
            && TotalShares(b'.shares, asset) == TotalShares(sh, asset)
  {
    var (b, added) := AddLiquidity(l, sh, account, asset, inherent, paired);
    var minted := Minted(TotalShares(sh, asset), inherent, InherentReserve(l, asset));
    AdditionReserves(l, sh, account, asset, inherent, paired);
    AddLiquidityAddsUp(l, sh, account, asset, inherent, paired);
    RemoveLiquidityAddsUp(b.ledger, b.shares, account, asset, minted);
    RemovalReserves(b.ledger, b.shares, account, asset, minted);
    AddThenBurnLoses(TotalShares(sh, asset), inherent, InherentReserve(l, asset));
  }
}
