// The swap pallet: storage updated in place, each call proved against its function. Where the
// pallet discards the result of a transfer, so does the code here.

module SwapStorage {
  import opened Identifiers
  import AssetsStorage
  import opened ConstantProduct
  import opened SwapExchange
  import opened SwapSafety

  class Swap {
    const assets: AssetsStorage.Assets
    var totalLiquidities: map<AssetId, nat>
    var accountLiquidities: map<(AssetId, AccountId), nat>
    var exchangeAccounts: map<AssetId, AccountId>

    ghost function State(): Shares
      reads this
    {
      Shares(totalLiquidities, accountLiquidities, exchangeAccounts)
    }

    /** Account liquidities add up to the totals, on a conserved ledger. */
    ghost predicate Valid()
      reads this, assets
    {
      assets.Valid() && SharesAddUp(State())
    }

    constructor (assets: AssetsStorage.Assets)
      requires assets.Valid()
      ensures Valid() && this.assets == assets && State() == NoShares
    {
      this.assets := assets;
      totalLiquidities, accountLiquidities, exchangeAccounts := map[], map[], map[];
      new;
      NoSharesAddUp();
    }

    // ---------- reserves ----------

    function PoolAddress(paired: AssetId): (a: AccountId)
      reads assets
      ensures a == PoolOf(assets.State(), paired)
    {
      Exchange(assets.inherentAsset, paired)
    }

    function InherentInPool(paired: AssetId): (n: nat)
      reads assets
      ensures n == InherentReserve(assets.State(), paired)
    {
      assets.BalanceOf(assets.inherentAsset, PoolAddress(paired))
    }

    function PairedInPool(paired: AssetId): (n: nat)
      reads assets
      ensures n == PairedReserve(assets.State(), paired)
    {
      assets.BalanceOf(paired, PoolAddress(paired))
    }

    // ---------- exact input ----------

    method InherentToPairedExactInput(payer: AccountId, recipient: AccountId, paired: AssetId, input: nat) returns (quote: Quote)
      requires assets.Valid()
      modifies assets
      ensures assets.Valid()
      ensures (assets.State(), quote) == InherentIn(old(assets.State()), payer, recipient, paired, input)
    {
      quote := OutputAtInput(input, InherentInPool(paired), PairedInPool(paired));
      if quote == EmptyPool {
        return;
      }
      var pool := PoolAddress(paired);
      var _ := assets.Transfer(payer, assets.inherentAsset, pool, input);
      var _ := assets.Transfer(pool, paired, recipient, quote.n);
    }

    method PairedToInherentExactInput(payer: AccountId, recipient: AccountId, paired: AssetId, input: nat) returns (quote: Quote)
      requires assets.Valid()
      modifies assets
      ensures assets.Valid()
      ensures (assets.State(), quote) == PairedIn(old(assets.State()), payer, recipient, paired, input)
    {
      quote := OutputAtInput(input, PairedInPool(paired), InherentInPool(paired));
      if quote == EmptyPool {
        return;
      }
      var pool := PoolAddress(paired);
      var _ := assets.Transfer(payer, paired, pool, input);
      var _ := assets.Transfer(pool, assets.inherentAsset, recipient, quote.n);
    }

    method AToBExactInput(payer: AccountId, recipient: AccountId, a: AssetId, b: AssetId, input: nat) returns (quote: Quote)
      requires assets.Valid()
      modifies assets
      ensures assets.Valid()
      ensures (assets.State(), quote) == CrossIn(old(assets.State()), payer, recipient, a, b, input)
    {
      var poolA, poolB := PoolAddress(a), PoolAddress(b);
      var mid := OutputAtInput(input, PairedInPool(a), InherentInPool(a));
      if mid == EmptyPool {
        return EmptyPool;
      }
      quote := OutputAtInput(mid.n, InherentInPool(b), PairedInPool(b));
      if quote == EmptyPool {
        return;
      }
      var _ := assets.Transfer(payer, a, poolA, input);
      var _ := assets.Transfer(poolA, assets.inherentAsset, poolB, mid.n);
      var _ := assets.Transfer(poolB, b, recipient, quote.n);
    }

    method SwapAssetsWithExactInput(payer: AccountId, recipient: AccountId, assetIn: AssetId, assetOut: AssetId, input: nat) returns (quote: Quote)
      requires assets.Valid()
      modifies assets
      ensures assets.Valid()
      ensures (assets.State(), quote) == SwapExactInput(old(assets.State()), payer, recipient, assetIn, assetOut, input)
    {
      if assetIn == assets.inherentAsset {
        quote := InherentToPairedExactInput(payer, recipient, assetOut, input);
      } else if assetOut == assets.inherentAsset {
        quote := PairedToInherentExactInput(payer, recipient, assetIn, input);
      } else {
        quote := AToBExactInput(payer, recipient, assetIn, assetOut, input);
      }
    }

    // ---------- exact output ----------

    method InherentToPairedExactOutput(payer: AccountId, recipient: AccountId, paired: AssetId, output: nat) returns (quote: Quote)
      requires assets.Valid()
      modifies assets
      ensures assets.Valid()
      ensures (assets.State(), quote) == InherentFor(old(assets.State()), payer, recipient, paired, output)
    {
      quote := InputAtOutput(output, InherentInPool(paired), PairedInPool(paired));
      if quote == EmptyPool {
        return;
      }
      var pool := PoolAddress(paired);
      var _ := assets.Transfer(payer, assets.inherentAsset, pool, quote.n);
      var _ := assets.Transfer(pool, paired, recipient, output);
    }

    method PairedToInherentExactOutput(payer: AccountId, recipient: AccountId, paired: AssetId, output: nat) returns (quote: Quote)
      requires assets.Valid()
      modifies assets
      ensures assets.Valid()
      ensures (assets.State(), quote) == PairedFor(old(assets.State()), payer, recipient, paired, output)
    {
      quote := InputAtOutput(output, PairedInPool(paired), InherentInPool(paired));
      if quote == EmptyPool {
        return;
      }
      var pool := PoolAddress(paired);
      var _ := assets.Transfer(payer, paired, pool, quote.n);
      var _ := assets.Transfer(pool, assets.inherentAsset, recipient, output);
    }

    method AToBExactOutput(payer: AccountId, recipient: AccountId, a: AssetId, b: AssetId, output: nat) returns (quote: Quote)
      requires assets.Valid()
      modifies assets
      ensures assets.Valid()
      ensures (assets.State(), quote) == CrossFor(old(assets.State()), payer, recipient, a, b, output)
    {
      var poolA, poolB := PoolAddress(a), PoolAddress(b);
      var mid := InputAtOutput(output, InherentInPool(b), PairedInPool(b));
      if mid == EmptyPool {
        return EmptyPool;
      }
      quote := InputAtOutput(mid.n, PairedInPool(a), InherentInPool(a));
      if quote == EmptyPool {
        return;
      }
      var _ := assets.Transfer(payer, a, poolA, quote.n);
      var _ := assets.Transfer(poolA, assets.inherentAsset, poolB, mid.n);
      var _ := assets.Transfer(poolB, b, recipient, output);
    }

    method SwapAssetsWithExactOutput(payer: AccountId, recipient: AccountId, assetIn: AssetId, assetOut: AssetId, output: nat) returns (quote: Quote)
      requires assets.Valid()
      modifies assets
      ensures assets.Valid()
      ensures (assets.State(), quote) == SwapExactOutput(old(assets.State()), payer, recipient, assetIn, assetOut, output)
    {
      if assetIn == assets.inherentAsset {
        quote := InherentToPairedExactOutput(payer, recipient, assetOut, output);
      } else if assetOut == assets.inherentAsset {
        quote := PairedToInherentExactOutput(payer, recipient, assetIn, output);
      } else {
        quote := AToBExactOutput(payer, recipient, assetIn, assetOut, output);
      }
    }

    // ---------- liquidity ----------

    function GetTotalLiquidity(asset: AssetId): (n: nat)
      reads this
      ensures n == TotalShares(State(), asset)
    {
      if asset in totalLiquidities then totalLiquidities[asset] else 0
    }

    function GetLiquidity(asset: AssetId, account: AccountId): (n: nat)
      reads this
      ensures n == SharesOf(State(), asset, account)
    {
      if (asset, account) in accountLiquidities then accountLiquidities[(asset, account)] else 0
    }

    method SetLiquidity(asset: AssetId, account: AccountId, liquidity: nat)
      modifies this`accountLiquidities
      ensures State() == old(State()).(accounts := old(accountLiquidities)[(asset, account) := liquidity])
    {
      accountLiquidities := accountLiquidities[(asset, account) := liquidity];
    }

    method IncreaseTotalLiquidity(asset: AssetId, liquidity: nat)
      modifies this`totalLiquidities
      ensures State() == old(State()).(totals := old(totalLiquidities)[asset := TotalShares(old(State()), asset) + liquidity])
    {
      totalLiquidities := totalLiquidities[asset := GetTotalLiquidity(asset) + liquidity];
    }

    method DecreaseTotalLiquidity(asset: AssetId, liquidity: nat) returns (fits: bool)
      modifies this`totalLiquidities
      ensures fits == (liquidity <= TotalShares(old(State()), asset))
      ensures !fits ==> State() == old(State())
      ensures fits ==> State() == old(State()).(totals := old(totalLiquidities)[asset := TotalShares(old(State()), asset) - liquidity])
    {
      if GetTotalLiquidity(asset) < liquidity {
        return false;
      }
      totalLiquidities := totalLiquidities[asset := GetTotalLiquidity(asset) - liquidity];
      return true;
    }

    /** The two deposits; what they fail to move is not noticed. */
    method Deposit(account: AccountId, asset: AssetId, inherent: nat, paired: nat)
      requires assets.Valid()
      modifies assets
      ensures assets.Valid()
      ensures var l := old(assets.State());
              assets.State() == Pay(Pay(l, account, l.inherentAsset, PoolOf(l, asset), inherent), account, asset, PoolOf(l, asset), paired)
    {
      var pool := PoolAddress(asset);
      var _ := assets.Transfer(account, assets.inherentAsset, pool, inherent);
      var _ := assets.Transfer(account, asset, pool, paired);
    }

    method PayBack(account: AccountId, asset: AssetId, inherent: nat, paired: nat)
      requires assets.Valid()
      modifies assets
      ensures assets.Valid()
      ensures var l := old(assets.State());
              assets.State() == Pay(Pay(l, PoolOf(l, asset), l.inherentAsset, account, inherent), PoolOf(l, asset), asset, account, paired)
    {
      var pool := PoolAddress(asset);
      var _ := assets.Transfer(pool, assets.inherentAsset, account, inherent);
      var _ := assets.Transfer(pool, asset, account, paired);
    }

    /** `done` is false when the mint's division traps; the executor then discards the transfers. */
    method AddLiquidity(account: AccountId, asset: AssetId, inherent: nat, paired: nat) returns (done: bool)
      requires assets.Valid()
      modifies this, assets
      ensures assets.Valid()
      ensures (Venue(assets.State(), State()), done)
              == SwapExchange.AddLiquidity(old(assets.State()), old(State()), account, asset, inherent, paired)
      ensures old(SharesAddUp(State())) ==> SharesAddUp(State())
    {
      if SharesAddUp(State()) {
        AddLiquidityAddsUp(assets.State(), State(), account, asset, inherent, paired);
      }
      var pool, total, inPool := PoolAddress(asset), GetTotalLiquidity(asset), InherentInPool(asset);
      Deposit(account, asset, inherent, paired);
      var minted := inherent;
      if total != 0 {
        if inPool == 0 {
          return false;
        }
        minted := Minted(total, inherent, inPool);
      }
      CreditShares(account, asset, minted, pool);
      return true;
    }

    method CreditShares(account: AccountId, asset: AssetId, minted: nat, pool: AccountId)
      modifies this
      ensures State() == Credited(old(State()), account, asset, minted, pool)
    {
      if GetTotalLiquidity(asset) == 0 {
        SetLiquidity(asset, account, minted);
      } else {
        SetLiquidity(asset, account, GetLiquidity(asset, account) + minted);
      }
      IncreaseTotalLiquidity(asset, minted);
      exchangeAccounts := exchangeAccounts[asset := pool];
    }

    /** `done` is false when a division or a subtraction traps. With shares that add up, taking the
        account's shares is the only subtraction that can. */
    method RemoveLiquidity(account: AccountId, asset: AssetId, liquidity: nat) returns (done: bool)
      requires assets.Valid()
      modifies this, assets
      ensures assets.Valid()
      ensures (Venue(assets.State(), State()), done)
              == SwapExchange.RemoveLiquidity(old(assets.State()), old(State()), account, asset, liquidity)
      ensures old(SharesAddUp(State())) && done ==> SharesAddUp(State())
    {
      if SharesAddUp(State()) {
        RemoveLiquidityAddsUp(assets.State(), State(), account, asset, liquidity);
      }
      if GetTotalLiquidity(asset) == 0 {
        return false;
      }
      var inherent, paired := PriceShares(asset, liquidity);
      PayBack(account, asset, inherent, paired);
      done := TakeShares(account, asset, liquidity);
    }

    method PriceShares(asset: AssetId, liquidity: nat) returns (inherent: nat, paired: nat)
      requires TotalShares(State(), asset) > 0
      ensures inherent == Burned(InherentReserve(assets.State(), asset), liquidity, TotalShares(State(), asset))
      ensures paired == Burned(PairedReserve(assets.State(), asset), liquidity, TotalShares(State(), asset))
    {
      inherent := Burned(InherentInPool(asset), liquidity, GetTotalLiquidity(asset));
      paired := Burned(PairedInPool(asset), liquidity, GetTotalLiquidity(asset));
    }

    method TakeShares(account: AccountId, asset: AssetId, liquidity: nat) returns (done: bool)
      modifies this`accountLiquidities, this`totalLiquidities
      ensures (State(), done) == SwapExchange.TakeShares(old(State()), account, asset, liquidity)
    {
      var own := GetLiquidity(asset, account);
      if own < liquidity {
        return false;
      }
      SetLiquidity(asset, account, own - liquidity);
      done := DecreaseTotalLiquidity(asset, liquidity);
    }
  }
}
