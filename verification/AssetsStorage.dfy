// The assets pallet: storage updated in place, each method proved against the ledger value.

module AssetsStorage {
  import opened Identifiers
  import opened FixedPoint
  import opened AssetLedger

  class Assets {
    var nextAssetId: AssetId
    var totalSupply: map<AssetId, u128>
    var balances: map<(AssetId, AccountId), u128>
    var inherentAsset: AssetId
    var price: map<AssetId, nat>

    ghost function State(): Ledger
      reads this
    {
      Ledger(nextAssetId, totalSupply, balances, inherentAsset, price)
    }

    /** Conservation is the class invariant; it is what keeps every `+=` and `-=` below in range. */
    ghost predicate Valid()
      reads this
    {
      Conserved(State())
    }

    constructor (owner: AccountId, assets: seq<GenesisAsset>)
      ensures Valid()
      ensures State() == Genesis(Empty, owner, assets)
    {
      nextAssetId, totalSupply, balances, inherentAsset, price := 0, map[], map[], 0, map[];
      new;
      hide Conserved, AssetLedger.Issue, AssetLedger.Transfer, AssetLedger.SetPrice;
      EmptyConserved();
      assert assets[..0] == [];
      for i := 0 to |assets|
        invariant Valid()
        invariant State() == Genesis(Empty, owner, assets[..i])
      {
        var asset := assets[i];
        assert assets[..i + 1][..i] == assets[..i];
        Issue(asset.account, asset.amount);
        var id := nextAssetId - 1;
        var _ := Transfer(asset.account, id, owner, 500_000);
        SetPrice(id, FromInteger(asset.price));
      }
      assert assets[..|assets|] == assets;
    }

    /** Balance of `who`, zero when nothing is stored. */
    function BalanceOf(id: AssetId, who: AccountId): (b: u128)
      reads this
      ensures b == Balance(State(), id, who)
    {
      if (id, who) in balances then balances[(id, who)] else 0
    }

    function TotalSupplyOf(id: AssetId): (t: u128)
      reads this
      ensures t == TotalSupply(State(), id)
    {
      if id in totalSupply then totalSupply[id] else 0
    }

    function GetRate(id: AssetId): (p: nat)
      reads this
      ensures p == Price(State(), id)
    {
      if id in price then price[id] else 0
    }

    method Issue(who: AccountId, total: u128)
      requires Valid()
      modifies this
      ensures Valid()
      ensures State() == AssetLedger.Issue(old(State()), who, total)
    {
      IssueConserves(State(), who, total);
      var id := nextAssetId;
      nextAssetId := nextAssetId + 1;
      balances := balances[(id, who) := total];
      totalSupply := totalSupply[id := total];
    }

    method Destroy(who: AccountId, id: AssetId) returns (ok: bool)
      requires Valid()
      modifies this
      ensures Valid()
      ensures (State(), if ok then Destroyed else NothingHeld) == AssetLedger.Destroy(old(State()), who, id)
    {
      DestroyConserves(State(), who, id);
      var balance := BalanceOf(id, who);
      balances := balances - {(id, who)};
      if balance == 0 {
        return false;
      }
      totalSupply := totalSupply[id := TotalSupplyOf(id) - balance];
      return true;
    }

    method Transfer(from: AccountId, id: AssetId, to: AccountId, amount: nat) returns (ok: bool)
      requires Valid()
      modifies this
      ensures Valid()
      ensures (State(), ok) == AssetLedger.Transfer(old(State()), from, id, to, amount)
      ensures !ok ==> State() == old(State())
    {
      TransferConserves(State(), from, id, to, amount);
      var originBalance := BalanceOf(id, from);
      if amount == 0 {
        return false;
      }
      if originBalance < amount {
        return false;
      }
      balances := balances[(id, from) := originBalance - amount];
      balances := balances[(id, to) := BalanceOf(id, to) + amount];
      return true;
    }

    method SetPrice(id: AssetId, p: nat)
      requires Valid()
      modifies this
      ensures Valid()
      ensures State() == AssetLedger.SetPrice(old(State()), id, p)
    {
      SettersConserve(State(), id, p);
      price := price[id := p];
    }

    method SetInherentAsset(id: AssetId)
      requires Valid()
      modifies this
      ensures Valid()
      ensures State() == AssetLedger.SetInherentAsset(old(State()), id)
    {
      SettersConserve(State(), id, 0);
      inherentAsset := id;
    }
  }
}
