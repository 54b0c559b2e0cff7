// The multi-asset ledger as a value, and its conservation law.

module AssetLedger {
  import opened Identifiers
  import opened FixedPoint
  import opened Sums

  datatype Ledger = Ledger(
    nextAssetId: AssetId,
    totalSupply: map<AssetId, nat>,
    balances: map<(AssetId, AccountId), nat>,
    inherentAsset: AssetId,
    price: map<AssetId, nat>)

  const Empty := Ledger(0, map[], map[], 0, map[])

  // Storage maps answer the default value for a missing key.

  function Balance(l: Ledger, id: AssetId, who: AccountId): nat {
    if (id, who) in l.balances then l.balances[(id, who)] else 0
  }

  function TotalSupply(l: Ledger, id: AssetId): nat {
    if id in l.totalSupply then l.totalSupply[id] else 0
  }

  function Price(l: Ledger, id: AssetId): nat {
    if id in l.price then l.price[id] else 0
  }

  // ---------- operations ----------

  function Issue(l: Ledger, who: AccountId, total: u128): Ledger {
    l.(nextAssetId := l.nextAssetId + 1,
       balances := l.balances[(l.nextAssetId, who) := total],
       totalSupply := l.totalSupply[l.nextAssetId := total])
  }

  datatype DestroyOutcome = Destroyed | NothingHeld | SupplyUnderflow

  /** The record is taken out even when the call then fails for a zero balance. */
  function Destroy(l: Ledger, who: AccountId, id: AssetId): (Ledger, DestroyOutcome) {
    var balance := Balance(l, id, who);
    var taken := l.(balances := l.balances - {(id, who)});
    if balance == 0 then (taken, NothingHeld)
    else if TotalSupply(l, id) < balance then (taken, SupplyUnderflow)
    else (taken.(totalSupply := l.totalSupply[id := TotalSupply(l, id) - balance]), Destroyed)
  }

  function Transfer(l: Ledger, from: AccountId, id: AssetId, to: AccountId, amount: nat): (Ledger, bool) {
    if amount == 0 || Balance(l, id, from) < amount then (l, false)
    else
      var debited := l.(balances := l.balances[(id, from) := Balance(l, id, from) - amount]);
      (debited.(balances := debited.balances[(id, to) := Balance(debited, id, to) + amount]), true)
  }

  function SetPrice(l: Ledger, id: AssetId, price: nat): Ledger {
    l.(price := l.price[id := price])
  }

  function SetInherentAsset(l: Ledger, id: AssetId): Ledger {
    l.(inherentAsset := id)
  }

  datatype GenesisAsset = GenesisAsset(account: AccountId, amount: u128, price: nat)

  /** One round of the genesis build loop: issue, send 500000 to the owner, set the price. */
  function GenesisStep(l: Ledger, owner: AccountId, a: GenesisAsset): Ledger {
    var issued := Issue(l, a.account, a.amount);
    SetPrice(Transfer(issued, a.account, l.nextAssetId, owner, 500_000).0, l.nextAssetId, FromInteger(a.price))
  }

  function Genesis(l: Ledger, owner: AccountId, assets: seq<GenesisAsset>): Ledger {
    if assets == [] then l
    else GenesisStep(Genesis(l, owner, assets[..|assets| - 1]), owner, assets[|assets| - 1])
  }

  // ---------- conservation ----------

  ghost function HeldOf(balances: map<(AssetId, AccountId), nat>, id: AssetId): map<(AssetId, AccountId), nat> {
    map k | k in balances && k.0 == id :: balances[k]
  }

  /** What all accounts together hold of an asset. */
  ghost function Held(l: Ledger, id: AssetId): nat {
    Sum(HeldOf(l.balances, id))
  }

  /** Holdings add up to the recorded total supply, which fits its integer type, and ids not yet
      issued have no supply. */
  ghost predicate Conserved(l: Ledger) {
    forall id ::
      && Held(l, id) == TotalSupply(l, id) <= U128_MAX
      && (l.nextAssetId <= id ==> TotalSupply(l, id) == 0)
  }

  lemma EmptyConserved()
    ensures Conserved(Empty)
  {
  }

  lemma HoldingWithinSupply(l: Ledger, id: AssetId, who: AccountId)
    requires Conserved(l)
    ensures Balance(l, id, who) <= TotalSupply(l, id) <= U128_MAX
    ensures l.nextAssetId <= id ==> Balance(l, id, who) == 0
  {
    assert Held(l, id) == TotalSupply(l, id);
    if (id, who) in l.balances {
      SumAtLeast(HeldOf(l.balances, id), (id, who));
    }
  }

  /** Writing one balance moves that asset's holdings by the difference, and no other asset's. */
  lemma HeldUpdate(l: Ledger, id: AssetId, who: AccountId, v: nat, other: AssetId)
    ensures var l' := l.(balances := l.balances[(id, who) := v]);
            Held(l', other) == if other == id then Held(l, id) + v - Balance(l, id, who) else Held(l, other)
  {
    var l' := l.(balances := l.balances[(id, who) := v]);
    if other == id {
      assert HeldOf(l'.balances, id) == HeldOf(l.balances, id)[(id, who) := v];
      SumUpdate(HeldOf(l.balances, id), (id, who), v);
    } else {
      assert HeldOf(l'.balances, other) == HeldOf(l.balances, other);
    }
  }

  /** The fresh id goes to its holder in full; no other balance, total or price changes. */
  lemma IssueConserves(l: Ledger, who: AccountId, total: u128)
    requires Conserved(l)
    ensures var l', id := Issue(l, who, total), l.nextAssetId;
            && Conserved(l')
            && l' == l.(nextAssetId := id + 1, balances := l'.balances, totalSupply := l'.totalSupply)
            && (forall i, w :: Balance(l', i, w) == Balance(l, i, w) + (if i == id && w == who then total else 0))
            && (forall i :: TotalSupply(l', i) == TotalSupply(l, i) + (if i == id then total else 0))
  {
    var l' := Issue(l, who, total);
    HoldingWithinSupply(l, l.nextAssetId, who);
    forall id
      ensures Held(l', id) == TotalSupply(l', id) <= U128_MAX
      ensures l'.nextAssetId <= id ==> TotalSupply(l', id) == 0
    {
      HeldUpdate(l, l.nextAssetId, who, total, id);
      assert Held(l, id) == TotalSupply(l, id);
    }
  }

  /** The holder's whole balance leaves both the holdings and the total; the total always covers it. */
  lemma DestroyConserves(l: Ledger, who: AccountId, id: AssetId)
    requires Conserved(l)
    ensures var (l', out) := Destroy(l, who, id);
            && Conserved(l')
            && Balance(l', id, who) == 0
            && Balance(l, id, who) <= TotalSupply(l, id)
            && TotalSupply(l', id) == TotalSupply(l, id) - Balance(l, id, who)
            && out == (if Balance(l, id, who) > 0 then Destroyed else NothingHeld)
  {
    HoldingWithinSupply(l, id, who);
    var (l', out) := Destroy(l, who, id);
    forall other
      ensures Held(l', other) == TotalSupply(l', other) <= U128_MAX
      ensures l'.nextAssetId <= other ==> TotalSupply(l', other) == 0
    {
      assert Held(l, other) == TotalSupply(l, other);
      if other == id {
        assert HeldOf(l'.balances, id) == HeldOf(l.balances, id) - {(id, who)};
        if (id, who) in l.balances {
          SumPick(HeldOf(l.balances, id), (id, who));
        } else {
          assert HeldOf(l'.balances, id) == HeldOf(l.balances, id);
        }
      } else {
        assert HeldOf(l'.balances, other) == HeldOf(l.balances, other);
      }
    }
  }

  /** Destroying takes one balance and its part of one total, and nothing else. */
  lemma DestroyTakes(l: Ledger, who: AccountId, id: AssetId, i: AssetId, w: AccountId)
    requires Conserved(l)
    ensures var l' := Destroy(l, who, id).0;
            && l' == l.(balances := l'.balances, totalSupply := l'.totalSupply)
            && Balance(l', i, w) == (if i == id && w == who then 0 else Balance(l, i, w))
            && TotalSupply(l', i) == TotalSupply(l, i) - (if i == id then Balance(l, id, who) else 0)
  {
    HoldingWithinSupply(l, id, who);
  }

  /** How one balance changes when `n` of `id` moves between two accounts; not at all if they are one. */
  function Shift(i: AssetId, who: AccountId, id: AssetId, from: AccountId, to: AccountId, n: nat): int {
    (if i == id && who == to then n else 0) - (if i == id && who == from then n else 0)
  }

  /** A transfer succeeds exactly when the amount is positive and covered; it then moves the amount
      between the two accounts and touches no other balance. A self-transfer changes nothing. */
  lemma TransferMoves(l: Ledger, from: AccountId, id: AssetId, to: AccountId, amount: nat, i: AssetId, who: AccountId)
    ensures var (l', ok) := Transfer(l, from, id, to, amount);
            && (ok <==> 0 < amount <= Balance(l, id, from))
            && Balance(l', i, who) == Balance(l, i, who) + (if ok then Shift(i, who, id, from, to, amount) else 0)
            && l' == l.(balances := l'.balances)
  {
  }

  lemma TransferKeepsHeld(l: Ledger, from: AccountId, id: AssetId, to: AccountId, amount: nat, other: AssetId)
    ensures Held(Transfer(l, from, id, to, amount).0, other) == Held(l, other)
  {
    if Transfer(l, from, id, to, amount).1 {
      var mid := l.(balances := l.balances[(id, from) := Balance(l, id, from) - amount]);
      HeldUpdate(l, id, from, Balance(l, id, from) - amount, other);
      HeldUpdate(mid, id, to, Balance(mid, id, to) + amount, other);
    }
  }

  /** Conservation, and the credited balance fits in its integer type. */
  lemma TransferConserves(l: Ledger, from: AccountId, id: AssetId, to: AccountId, amount: nat)
    requires Conserved(l)
    ensures Conserved(Transfer(l, from, id, to, amount).0)
    ensures Balance(Transfer(l, from, id, to, amount).0, id, to) <= U128_MAX
  {
    var l' := Transfer(l, from, id, to, amount).0;
    forall other
      ensures Held(l', other) == TotalSupply(l', other) <= U128_MAX
      ensures l'.nextAssetId <= other ==> TotalSupply(l', other) == 0
    {
      TransferKeepsHeld(l, from, id, to, amount, other);
      assert Held(l, other) == TotalSupply(l, other);
    }
    HoldingWithinSupply(l', id, to);
  }

  lemma SettersConserve(l: Ledger, id: AssetId, price: nat)
    requires Conserved(l)
    ensures Conserved(SetPrice(l, id, price)) && Conserved(SetInherentAsset(l, id))
  {
    forall i ensures Held(SetPrice(l, id, price), i) == Held(l, i) == Held(SetInherentAsset(l, id), i) {
    }
    assert forall i :: Held(l, i) == TotalSupply(l, i) <= U128_MAX;
  }

  lemma GenesisStepConserves(l: Ledger, owner: AccountId, a: GenesisAsset)
    requires Conserved(l)
    ensures Conserved(GenesisStep(l, owner, a))
    ensures GenesisStep(l, owner, a).nextAssetId == l.nextAssetId + 1
  {
    IssueConserves(l, a.account, a.amount);
    var issued := Issue(l, a.account, a.amount);
    TransferConserves(issued, a.account, l.nextAssetId, owner, 500_000);
    SettersConserve(Transfer(issued, a.account, l.nextAssetId, owner, 500_000).0, l.nextAssetId, FromInteger(a.price));
  }

  /** Genesis leaves a conserved ledger with one id per configured asset. */
  lemma {:induction false} GenesisConserves(l: Ledger, owner: AccountId, assets: seq<GenesisAsset>)
    requires Conserved(l)
    ensures Conserved(Genesis(l, owner, assets))
    ensures Genesis(l, owner, assets).nextAssetId == l.nextAssetId + |assets|
  {
    if assets != [] {
      GenesisConserves(l, owner, assets[..|assets| - 1]);
      GenesisStepConserves(Genesis(l, owner, assets[..|assets| - 1]), owner, assets[|assets| - 1]);
    }
  }

  /** What an account holds of a configured asset: the issuer the amount, less the 500000 units that go
      to the owner if the amount covers them. */
  function GenesisHolding(owner: AccountId, a: GenesisAsset, who: AccountId): int {
    (if who == a.account then a.amount else 0)
    + (if 500_000 <= a.amount then (if who == owner then 500_000 else 0) - (if who == a.account then 500_000 else 0) else 0)
  }

  lemma GenesisStepPays(l: Ledger, owner: AccountId, a: GenesisAsset, i: AssetId, who: AccountId)
    requires Conserved(l)
    ensures var l' := GenesisStep(l, owner, a);
            && Balance(l', i, who) == (if i == l.nextAssetId then GenesisHolding(owner, a, who) else Balance(l, i, who))
            && Price(l', i) == (if i == l.nextAssetId then a.price * D else Price(l, i))
  {
    hide Conserved;
    IssueConserves(l, a.account, a.amount);
    HoldingWithinSupply(l, l.nextAssetId, who);
    HoldingWithinSupply(l, l.nextAssetId, a.account);
    TransferMoves(Issue(l, a.account, a.amount), a.account, l.nextAssetId, owner, 500_000, i, who);
  }

  /** Every configured asset gets the next id, its price and its holders; what was there before stays. */
  lemma {:induction false} GenesisPays(l: Ledger, owner: AccountId, assets: seq<GenesisAsset>, i: AssetId, who: AccountId)
    requires Conserved(l)
    ensures var l', k := Genesis(l, owner, assets), i - l.nextAssetId;
            && Balance(l', i, who) == (if 0 <= k < |assets| then GenesisHolding(owner, assets[k], who) else Balance(l, i, who))
            && Price(l', i) == (if 0 <= k < |assets| then assets[k].price * D else Price(l, i))
  {
    hide GenesisStep, GenesisHolding, Balance, Price;
    if assets != [] {
      var front := assets[..|assets| - 1];
      GenesisConserves(l, owner, front);
      GenesisPays(l, owner, front, i, who);
      GenesisStepPays(Genesis(l, owner, front), owner, assets[|assets| - 1], i, who);
    }
  }
}
