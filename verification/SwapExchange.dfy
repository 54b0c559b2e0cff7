// The swap pallet as functions on the asset ledger and the liquidity shares. The pallet discards
// the result of every transfer it makes; so does `Pay`.

module SwapExchange {
  import opened Identifiers
  import opened AssetLedger
  import opened ConstantProduct

  datatype Quote = EmptyPool | Amount(n: nat)

  datatype Shares = Shares(
    totals: map<AssetId, nat>,
    accounts: map<(AssetId, AccountId), nat>,
    exchangeAccounts: map<AssetId, AccountId>)

  const NoShares := Shares(map[], map[], map[])

  function Pay(l: Ledger, from: AccountId, id: AssetId, to: AccountId, amount: nat): Ledger {
    Transfer(l, from, id, to, amount).0
  }

  function PoolOf(l: Ledger, paired: AssetId): AccountId {
    Exchange(l.inherentAsset, paired)
  }

  function InherentReserve(l: Ledger, paired: AssetId): nat {
    Balance(l, l.inherentAsset, PoolOf(l, paired))
  }

  function PairedReserve(l: Ledger, paired: AssetId): nat {
    Balance(l, paired, PoolOf(l, paired))
  }

  // ---------- quotes ----------

  function OutputAtInput(input: nat, inReserve: nat, outReserve: nat): Quote {
    if inReserve == 0 || outReserve == 0 then EmptyPool
    else Amount(Output(input, inReserve, outReserve))
  }

  /** The pallet computes a priced input here and then returns the output amount instead. */
  function InputAtOutput(output: nat, inReserve: nat, outReserve: nat): Quote {
    if inReserve == 0 || outReserve == 0 then EmptyPool
    else if outReserve <= output then Amount(U128_MAX)
    else Amount(output)
  }

  // ---------- exact input ----------

  function InherentIn(l: Ledger, payer: AccountId, recipient: AccountId, paired: AssetId, input: nat): (Ledger, Quote) {
    match OutputAtInput(input, InherentReserve(l, paired), PairedReserve(l, paired))
    case EmptyPool => (l, EmptyPool)
    case Amount(out) =>
      var l1 := Pay(l, payer, l.inherentAsset, PoolOf(l, paired), input);
      (Pay(l1, PoolOf(l, paired), paired, recipient, out), Amount(out))
  }

  function PairedIn(l: Ledger, payer: AccountId, recipient: AccountId, paired: AssetId, input: nat): (Ledger, Quote) {
    match OutputAtInput(input, PairedReserve(l, paired), InherentReserve(l, paired))
    case EmptyPool => (l, EmptyPool)
    case Amount(out) =>
      var l1 := Pay(l, payer, paired, PoolOf(l, paired), input);
      (Pay(l1, PoolOf(l, paired), l.inherentAsset, recipient, out), Amount(out))
  }

  /** Asset a to asset b by way of the inherent asset; both hops are priced before either moves. */
  function CrossIn(l: Ledger, payer: AccountId, recipient: AccountId, a: AssetId, b: AssetId, input: nat): (Ledger, Quote) {
    match OutputAtInput(input, PairedReserve(l, a), InherentReserve(l, a))
    case EmptyPool => (l, EmptyPool)
    case Amount(mid) =>
      match OutputAtInput(mid, InherentReserve(l, b), PairedReserve(l, b))
      case EmptyPool => (l, EmptyPool)
      case Amount(out) =>
        var l1 := Pay(l, payer, a, PoolOf(l, a), input);
        var l2 := Pay(l1, PoolOf(l, a), l.inherentAsset, PoolOf(l, b), mid);
        (Pay(l2, PoolOf(l, b), b, recipient, out), Amount(out))
  }

  function SwapExactInput(l: Ledger, payer: AccountId, recipient: AccountId, assetIn: AssetId, assetOut: AssetId, input: nat): (Ledger, Quote) {
    if assetIn == l.inherentAsset then InherentIn(l, payer, recipient, assetOut, input)
    else if assetOut == l.inherentAsset then PairedIn(l, payer, recipient, assetIn, input)
    else CrossIn(l, payer, recipient, assetIn, assetOut, input)
  }

  // ---------- exact output ----------

  function InherentFor(l: Ledger, payer: AccountId, recipient: AccountId, paired: AssetId, output: nat): (Ledger, Quote) {
    match InputAtOutput(output, InherentReserve(l, paired), PairedReserve(l, paired))
    case EmptyPool => (l, EmptyPool)
    case Amount(charged) =>
      var l1 := Pay(l, payer, l.inherentAsset, PoolOf(l, paired), charged);
      (Pay(l1, PoolOf(l, paired), paired, recipient, output), Amount(charged))
  }

  function PairedFor(l: Ledger, payer: AccountId, recipient: AccountId, paired: AssetId, output: nat): (Ledger, Quote) {
    match InputAtOutput(output, PairedReserve(l, paired), InherentReserve(l, paired))
    case EmptyPool => (l, EmptyPool)
    case Amount(charged) =>
      var l1 := Pay(l, payer, paired, PoolOf(l, paired), charged);
      (Pay(l1, PoolOf(l, paired), l.inherentAsset, recipient, output), Amount(charged))
  }

  function CrossFor(l: Ledger, payer: AccountId, recipient: AccountId, a: AssetId, b: AssetId, output: nat): (Ledger, Quote) {
    match InputAtOutput(output, InherentReserve(l, b), PairedReserve(l, b))
    case EmptyPool => (l, EmptyPool)
    case Amount(mid) =>
      match InputAtOutput(mid, PairedReserve(l, a), InherentReserve(l, a))
      case EmptyPool => (l, EmptyPool)
      case Amount(charged) =>
        var l1 := Pay(l, payer, a, PoolOf(l, a), charged);
        var l2 := Pay(l1, PoolOf(l, a), l.inherentAsset, PoolOf(l, b), mid);
        (Pay(l2, PoolOf(l, b), b, recipient, output), Amount(charged))
  }

  function SwapExactOutput(l: Ledger, payer: AccountId, recipient: AccountId, assetIn: AssetId, assetOut: AssetId, output: nat): (Ledger, Quote) {
    if assetIn == l.inherentAsset then InherentFor(l, payer, recipient, assetOut, output)
    else if assetOut == l.inherentAsset then PairedFor(l, payer, recipient, assetIn, output)
    else CrossFor(l, payer, recipient, assetIn, assetOut, output)
  }

  // ---------- liquidity ----------

  function TotalShares(sh: Shares, asset: AssetId): nat {
    if asset in sh.totals then sh.totals[asset] else 0
  }

  function SharesOf(sh: Shares, asset: AssetId, account: AccountId): nat {
    if (asset, account) in sh.accounts then sh.accounts[(asset, account)] else 0
  }

  datatype Venue = Venue(ledger: Ledger, shares: Shares)

  /** What an addition mints; none when the division by the inherent reserve traps. */
  datatype Mint = Traps | Mints(n: nat)

  function MintOf(l: Ledger, sh: Shares, asset: AssetId, inherent: nat): Mint {
    if TotalShares(sh, asset) == 0 then Mints(inherent)
    else if InherentReserve(l, asset) == 0 then Traps
    else Mints(Minted(TotalShares(sh, asset), inherent, InherentReserve(l, asset)))
  }

  /** The first injection overwrites the account's shares; a later one adds to them. */
  function Credited(sh: Shares, account: AccountId, asset: AssetId, n: nat, pool: AccountId): Shares {
    var kept := if TotalShares(sh, asset) == 0 then 0 else SharesOf(sh, asset, account);
    Shares(sh.totals[asset := TotalShares(sh, asset) + n],
           sh.accounts[(asset, account) := kept + n],
           sh.exchangeAccounts[asset := pool])
  }

  function AddLiquidity(l: Ledger, sh: Shares, account: AccountId, asset: AssetId, inherent: nat, paired: nat): (Venue, bool) {
    var pool := PoolOf(l, asset);
    var l2 := Pay(Pay(l, account, l.inherentAsset, pool, inherent), account, asset, pool, paired);
    match MintOf(l, sh, asset, inherent)
    case Traps => (Venue(l2, sh), false)
    case Mints(n) => (Venue(l2, Credited(sh, account, asset, n, pool)), true)
  }

  /** The account's shares first, then the total; either subtraction can trap. */
  function TakeShares(sh: Shares, account: AccountId, asset: AssetId, liquidity: nat): (Shares, bool) {
    var own, total := SharesOf(sh, asset, account), TotalShares(sh, asset);
    if own < liquidity then (sh, false) else
    var sh1 := sh.(accounts := sh.accounts[(asset, account) := own - liquidity]);
    if total < liquidity then (sh1, false) else
    (sh1.(totals := sh1.totals[asset := total - liquidity]), true)
  }

  /** Both reserves are priced first, paid out, and only then the shares are taken: the call traps
      without liquidity to divide by, or when the account burns more than it has. */
  function RemoveLiquidity(l: Ledger, sh: Shares, account: AccountId, asset: AssetId, liquidity: nat): (Venue, bool) {
    var pool, total := PoolOf(l, asset), TotalShares(sh, asset);
    if total == 0 then (Venue(l, sh), false) else
    var l2 := Pay(Pay(l, pool, l.inherentAsset, account, Burned(InherentReserve(l, asset), liquidity, total)),
                  pool, asset, account, Burned(PairedReserve(l, asset), liquidity, total));
    var (sh', done) := TakeShares(sh, account, asset, liquidity);
    (Venue(l2, sh'), done)
  }
}
