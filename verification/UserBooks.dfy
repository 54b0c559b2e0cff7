// User records of one side of the lending market (supplies or debts), with each user's list of
// assets, and the value of a user's positions. A book is read against `limits`: the effective
// index of every pool at the current block.

module UserBooks {
  import opened Identifiers
  import opened FixedPoint
  import opened InterestModel
  import opened Sums

  datatype Book = Book(
    records: map<(AssetId, AccountId), Record>,
    lists: map<AccountId, seq<AssetId>>)

  function List(b: Book, user: AccountId): seq<AssetId> {
    if user in b.lists then b.lists[user] else []
  }

  /** `retain(|x| *x != asset)`. */
  function Without(list: seq<AssetId>, asset: AssetId): seq<AssetId> {
    if list == [] then []
    else
      var rest := Without(list[..|list| - 1], asset);
      if list[|list| - 1] == asset then rest else rest + [list[|list| - 1]]
  }

  // ---------- operations ----------

  /** `accrue_supply_with_interest` / `accrue_debt_with_interest`. */
  function AccrueUser(b: Book, index: Index, asset: AssetId, user: AccountId): Book {
    if (asset, user) in b.records
    then b.(records := b.records[(asset, user) := Grown(b.records[(asset, user)], index)])
    else b
  }

  /** Store a record, or drop it and its list entry when nothing is left. */
  function Put(b: Book, asset: AssetId, user: AccountId, r: Record): Book {
    if r.amount != 0 then b.(records := b.records[(asset, user) := r])
    else Book(b.records - {(asset, user)}, b.lists[user := Without(List(b, user), asset)])
  }

  /** `update_user_supply` / `update_user_debt` with a positive change. */
  function Credit(b: Book, index: Index, asset: AssetId, user: AccountId, amount: nat): Book {
    if (asset, user) in b.records then
      var g := Grown(b.records[(asset, user)], index);
      Put(b, asset, user, g.(amount := g.amount + amount))
    else if amount != 0 then b.(records := b.records[(asset, user) := Record(amount, index)])
    else b
  }

  /** The same with a negative change; the subtraction traps unless the record covers it. */
  predicate DebitFits(b: Book, index: Index, asset: AssetId, user: AccountId, amount: nat) {
    (asset, user) in b.records ==> amount <= Grown(b.records[(asset, user)], index).amount
  }

  function Debit(b: Book, index: Index, asset: AssetId, user: AccountId, amount: nat): Book
    requires DebitFits(b, index, asset, user, amount)
  {
    if (asset, user) in b.records then
      var g := Grown(b.records[(asset, user)], index);
      Put(b, asset, user, g.(amount := g.amount - amount))
    else if amount != 0 then b.(records := b.records[(asset, user) := Record(amount, index)])
    else b
  }

  /** Append the asset to the user's list unless it is there. */
  function Enlist(b: Book, asset: AssetId, user: AccountId): Book {
    if asset in List(b, user) then b
    else b.(lists := b.lists[user := List(b, user) + [asset]])
  }

  // ---------- invariant ----------

  type Limits = map<AssetId, Index>

  predicate NoDuplicates(list: seq<AssetId>) {
    forall i, j | 0 <= i < j < |list| :: list[i] != list[j]
  }

  /** A list names each recorded asset once and nothing else. */
  ghost predicate ListMatches(b: Book, user: AccountId) {
    && NoDuplicates(List(b, user))
    && forall asset :: asset in List(b, user) <==> (asset, user) in b.records
  }

  /** A record is of an existing pool, positive, and between index one and the effective index. */
  ghost predicate RecordFits(b: Book, limits: Limits, asset: AssetId, user: AccountId)
    requires (asset, user) in b.records
  {
    var r := b.records[(asset, user)];
    asset in limits && 0 < r.amount && D <= r.index <= limits[asset]
  }

  ghost predicate BookOk(b: Book, limits: Limits) {
    && (forall user :: ListMatches(b, user))
    && (forall asset, user | (asset, user) in b.records :: RecordFits(b, limits, asset, user))
  }

  /** Retaining drops one asset, keeps the others in order and introduces no duplicate. */
  lemma {:induction false} WithoutIs(list: seq<AssetId>, asset: AssetId)
    ensures forall x :: x in Without(list, asset) <==> x in list && x != asset
    ensures asset !in list ==> Without(list, asset) == list
  {
    if list != [] {
      var front, last := list[..|list| - 1], list[|list| - 1];
      WithoutIs(front, asset);
      assert list == front + [last];
    }
  }

  lemma {:induction false} WithoutHasNoDuplicates(list: seq<AssetId>, asset: AssetId)
    requires NoDuplicates(list)
    ensures NoDuplicates(Without(list, asset))
  {
    if list != [] {
      var front, last := list[..|list| - 1], list[|list| - 1];
      WithoutHasNoDuplicates(front, asset);
      WithoutIs(front, asset);
      assert last !in front;
      if last != asset {
        AppendHasNoDuplicates(Without(front, asset), last);
      }
    }
  }

  lemma AppendHasNoDuplicates(list: seq<AssetId>, asset: AssetId)
    requires NoDuplicates(list) && asset !in list
    ensures NoDuplicates(list + [asset])
  {
  }

  /** What the view functions answer: the record caught up to the effective index, else zero. */
  function Owed(b: Book, limits: Limits, asset: AssetId, user: AccountId): nat {
    if asset in limits && (asset, user) in b.records
    then Grown(b.records[(asset, user)], limits[asset]).amount
    else 0
  }

  ghost predicate SameElsewhere(b: Book, b': Book, asset: AssetId, user: AccountId) {
    && (forall k | k != (asset, user) :: (k in b'.records <==> k in b.records))
    && (forall k | k != (asset, user) && k in b.records :: b'.records[k] == b.records[k])
    && (forall u | u != user :: List(b', u) == List(b, u))
    && Without(List(b', user), asset) == Without(List(b, user), asset)
  }

  lemma SameOwedElsewhere(b: Book, b': Book, limits: Limits, asset: AssetId, user: AccountId)
    requires SameElsewhere(b, b', asset, user)
    ensures forall a: AssetId, u: AccountId | (a, u) != (asset, user) :: Owed(b', limits, a, u) == Owed(b, limits, a, u)
  {
  }

  /** Accruing a user is invisible to the views. */
  lemma AccrueUserKeeps(b: Book, limits: Limits, asset: AssetId, user: AccountId)
    requires BookOk(b, limits) && asset in limits
    ensures var b' := AccrueUser(b, limits[asset], asset, user);
            && BookOk(b', limits)
            && SameElsewhere(b, b', asset, user)
            && b'.lists == b.lists
            && Owed(b', limits, asset, user) == Owed(b, limits, asset, user)
            && ((asset, user) in b'.records <==> (asset, user) in b.records)
            && ((asset, user) in b'.records ==> b'.records[(asset, user)] == Record(Owed(b, limits, asset, user), limits[asset]))
  {
    var b' := AccrueUser(b, limits[asset], asset, user);
    if (asset, user) in b.records {
      assert RecordFits(b, limits, asset, user);
      GrownTwice(b.records[(asset, user)], limits[asset]);
      GrownKeeps(b.records[(asset, user)], limits[asset]);
    }
    forall u ensures ListMatches(b', u) {
      assert ListMatches(b, u);
    }
    forall a, u | (a, u) in b'.records ensures RecordFits(b', limits, a, u) {
      assert RecordFits(b, limits, a, u);
    }
  }

  lemma CreditKeeps(b: Book, limits: Limits, asset: AssetId, user: AccountId, amount: nat)
    requires BookOk(b, limits) && asset in limits && D <= limits[asset] && 0 < amount
    ensures var b' := Enlist(Credit(b, limits[asset], asset, user, amount), asset, user);
            && BookOk(b', limits)
            && SameElsewhere(b, b', asset, user)
            && (asset, user) in b'.records
            && b'.records[(asset, user)] == Record(Owed(b, limits, asset, user) + amount, limits[asset])
            && Owed(b', limits, asset, user) == Owed(b, limits, asset, user) + amount
  {
    var c := Credit(b, limits[asset], asset, user, amount);
    CreditedRecord(b, limits, asset, user, amount);
    EnlistKeeps(b, c, limits, asset, user, Record(Owed(b, limits, asset, user) + amount, limits[asset]));
    DivSelf(limits[asset]);
    MulOne(Owed(b, limits, asset, user) + amount);
  }

  lemma CreditedRecord(b: Book, limits: Limits, asset: AssetId, user: AccountId, amount: nat)
    requires asset in limits && 0 < amount
    ensures Credit(b, limits[asset], asset, user, amount)
            == b.(records := b.records[(asset, user) := Record(Owed(b, limits, asset, user) + amount, limits[asset])])
  {
  }

  /** Storing a fitting record and enlisting its asset keeps the book in order. */
  lemma EnlistKeeps(b: Book, c: Book, limits: Limits, asset: AssetId, user: AccountId, r: Record)
    requires BookOk(b, limits) && asset in limits && 0 < r.amount && D <= r.index <= limits[asset]
    requires c == b.(records := b.records[(asset, user) := r])
    ensures BookOk(Enlist(c, asset, user), limits) && SameElsewhere(b, Enlist(c, asset, user), asset, user)
  {
    var b' := Enlist(c, asset, user);
    EnlistedElsewhere(b, c, asset, user, r);
    forall u ensures ListMatches(b', u) {
      assert ListMatches(b, u);
      EnlistedMatches(b, c, asset, user, r, u);
    }
    forall a, u | (a, u) in b'.records ensures RecordFits(b', limits, a, u) {
      if (a, u) != (asset, user) {
        assert RecordFits(b, limits, a, u);
      }
    }
  }

  lemma EnlistedMatches(b: Book, c: Book, asset: AssetId, user: AccountId, r: Record, u: AccountId)
    requires ListMatches(b, u) && c == b.(records := b.records[(asset, user) := r])
    ensures ListMatches(Enlist(c, asset, user), u)
  {
    if u == user && asset !in List(b, user) {
      AppendHasNoDuplicates(List(b, user), asset);
    }
  }

  lemma EnlistedElsewhere(b: Book, c: Book, asset: AssetId, user: AccountId, r: Record)
    requires c == b.(records := b.records[(asset, user) := r])
    ensures SameElsewhere(b, Enlist(c, asset, user), asset, user)
  {
    if asset !in List(b, user) {
      assert (List(b, user) + [asset])[..|List(b, user)|] == List(b, user);
    }
  }

  lemma DebitKeeps(b: Book, limits: Limits, asset: AssetId, user: AccountId, amount: nat)
    requires BookOk(b, limits) && asset in limits && (asset, user) in b.records
    requires amount <= Owed(b, limits, asset, user)
    ensures DebitFits(b, limits[asset], asset, user, amount)
    ensures var b' := Debit(b, limits[asset], asset, user, amount);
            && BookOk(b', limits)
            && SameElsewhere(b, b', asset, user)
            && Owed(b', limits, asset, user) == Owed(b, limits, asset, user) - amount
            && ((asset, user) in b'.records <==> amount < Owed(b, limits, asset, user))
            && ((asset, user) in b'.records ==> b'.records[(asset, user)] == Record(Owed(b, limits, asset, user) - amount, limits[asset]))
  {
    var b' := Debit(b, limits[asset], asset, user, amount);
    assert RecordFits(b, limits, asset, user);
    DivSelf(limits[asset]);
    MulOne(Owed(b, limits, asset, user) - amount);
    WithoutIs(List(b, user), asset);
    WithoutIs(Without(List(b, user), asset), asset);
    assert ListMatches(b, user);
    WithoutHasNoDuplicates(List(b, user), asset);
    forall u ensures ListMatches(b', u) {
      assert ListMatches(b, u);
    }
    forall a, u | (a, u) in b'.records ensures RecordFits(b', limits, a, u) {
      if (a, u) != (asset, user) {
        assert RecordFits(b, limits, a, u);
      }
    }
  }

  /** Effective indices that only grew keep every book in order. */
  lemma LimitsMayGrow(b: Book, limits: Limits, limits': Limits)
    requires BookOk(b, limits)
    requires forall a | a in limits :: a in limits' && limits[a] <= limits'[a]
    ensures BookOk(b, limits')
  {
    forall a, u | (a, u) in b.records ensures RecordFits(b, limits', a, u) {
      assert RecordFits(b, limits, a, u);
    }
  }

  // ---------- value of a user's positions ----------

  function Weight(weights: map<AssetId, nat>, asset: AssetId): nat {
    if asset in weights then weights[asset] else 0
  }

  function Term(b: Book, limits: Limits, weights: map<AssetId, nat>, asset: AssetId, user: AccountId): nat {
    MulInt(Weight(weights, asset), Owed(b, limits, asset, user))
  }

  /** Accumulated in list order, as the loops of `get_user_info` do. */
  function ListValue(b: Book, limits: Limits, weights: map<AssetId, nat>, user: AccountId, list: seq<AssetId>): nat {
    if list == [] then 0
    else ListValue(b, limits, weights, user, list[..|list| - 1])
         + Term(b, limits, weights, list[|list| - 1], user)
  }

  /** One more round of the loop. */
  lemma ListValueStep(b: Book, limits: Limits, weights: map<AssetId, nat>, user: AccountId, list: seq<AssetId>, i: nat)
    requires i < |list|
    ensures ListValue(b, limits, weights, user, list[..i + 1])
            == ListValue(b, limits, weights, user, list[..i]) + Term(b, limits, weights, list[i], user)
  {
    assert list[..i + 1][..i] == list[..i];
  }

  function Value(b: Book, limits: Limits, weights: map<AssetId, nat>, user: AccountId): nat {
    ListValue(b, limits, weights, user, List(b, user))
  }

  /** One asset's contribution can be taken out of a duplicate-free list. */
  lemma {:induction false} ListValueSplit(b: Book, limits: Limits, weights: map<AssetId, nat>, user: AccountId, list: seq<AssetId>, asset: AssetId)
    requires NoDuplicates(list)
    ensures ListValue(b, limits, weights, user, list)
            == ListValue(b, limits, weights, user, Without(list, asset))
               + (if asset in list then Term(b, limits, weights, asset, user) else 0)
  {
    hide Term;
    if list != [] {
      var front, last := list[..|list| - 1], list[|list| - 1];
      DuplicateFreeFront(list, asset);
      ListValueSplit(b, limits, weights, user, front, asset);
      if last != asset {
        ListValueAppend(b, limits, weights, user, Without(front, asset), last);
      }
    }
  }

  lemma DuplicateFreeFront(list: seq<AssetId>, asset: AssetId)
    requires list != [] && NoDuplicates(list)
    ensures var front, last := list[..|list| - 1], list[|list| - 1];
            && NoDuplicates(front) && last !in front
            && (asset in list <==> asset in front || asset == last)
  {
    assert list == list[..|list| - 1] + [list[|list| - 1]];
  }

  lemma ListValueAppend(b: Book, limits: Limits, weights: map<AssetId, nat>, user: AccountId, list: seq<AssetId>, asset: AssetId)
    ensures ListValue(b, limits, weights, user, list + [asset])
            == ListValue(b, limits, weights, user, list) + Term(b, limits, weights, asset, user)
  {
    assert (list + [asset])[..|list|] == list;
  }

  lemma {:induction false} ListValueAgrees(b: Book, b': Book, limits: Limits, weights: map<AssetId, nat>, user: AccountId, list: seq<AssetId>)
    requires forall a | a in list :: Owed(b', limits, a, user) == Owed(b, limits, a, user)
    ensures ListValue(b', limits, weights, user, list) == ListValue(b, limits, weights, user, list)
  {
    if list != [] {
      assert list[|list| - 1] in list;
      ListValueAgrees(b, b', limits, weights, user, list[..|list| - 1]);
    }
  }

  /** A user's value is one asset's term plus a remainder that ignores that asset. */
  lemma ValueSplit(b: Book, limits: Limits, weights: map<AssetId, nat>, user: AccountId, asset: AssetId)
    requires BookOk(b, limits)
    ensures Value(b, limits, weights, user)
            == ListValue(b, limits, weights, user, Without(List(b, user), asset)) + Term(b, limits, weights, asset, user)
  {
    assert ListMatches(b, user);
    ListValueSplit(b, limits, weights, user, List(b, user), asset);
  }

  /** Changing one record changes the user's value by the change of that record's term. */
  lemma ValueChange(b: Book, b': Book, limits: Limits, weights: map<AssetId, nat>, user: AccountId, asset: AssetId)
    requires BookOk(b, limits) && BookOk(b', limits) && SameElsewhere(b, b', asset, user)
    ensures Value(b', limits, weights, user) + Term(b, limits, weights, asset, user)
            == Value(b, limits, weights, user) + Term(b', limits, weights, asset, user)
  {
    ValueSplit(b, limits, weights, user, asset);
    ValueSplit(b', limits, weights, user, asset);
    var rest := Without(List(b, user), asset);
    WithoutIs(List(b, user), asset);
    SameOwedElsewhere(b, b', limits, asset, user);
    ListValueAgrees(b, b', limits, weights, user, rest);
  }

  ghost function AssetsOf(b: Book, user: AccountId): set<AssetId> {
    set k | k in b.records && k.1 == user :: k.0
  }

  /** What each of the user's records adds to the value. */
  ghost function Terms(b: Book, limits: Limits, weights: map<AssetId, nat>, user: AccountId, assets: set<AssetId>): map<AssetId, nat> {
    map a | a in assets :: Term(b, limits, weights, a, user)
  }

  lemma {:induction false} ListValueIsSum(b: Book, limits: Limits, weights: map<AssetId, nat>, user: AccountId, list: seq<AssetId>, assets: set<AssetId>)
    requires NoDuplicates(list)
    requires forall a :: a in assets <==> a in list
    ensures ListValue(b, limits, weights, user, list) == Sum(Terms(b, limits, weights, user, assets))
  {
    hide Term;
    var m := Terms(b, limits, weights, user, assets);
    if list == [] {
      assert m == map[];
    } else {
      var front, last := list[..|list| - 1], list[|list| - 1];
      FrontWithout(list, assets);
      ListValueIsSum(b, limits, weights, user, front, assets - {last});
      SumPick(m, last);
      assert Terms(b, limits, weights, user, assets - {last}) == m - {last};
    }
  }

  lemma FrontWithout(list: seq<AssetId>, assets: set<AssetId>)
    requires list != [] && NoDuplicates(list)
    requires forall a :: a in assets <==> a in list
    ensures var front, last := list[..|list| - 1], list[|list| - 1];
            && NoDuplicates(front) && last in assets
            && forall a :: a in assets - {last} <==> a in front
  {
    var front, last := list[..|list| - 1], list[|list| - 1];
    assert list == front + [last];
  }

  /** The loops sum over the user's records, each once, whatever the order of the list. */
  lemma ValueIsSum(b: Book, limits: Limits, weights: map<AssetId, nat>, user: AccountId)
    requires BookOk(b, limits)
    ensures Value(b, limits, weights, user) == Sum(Terms(b, limits, weights, user, AssetsOf(b, user)))
  {
    hide Term, ListValue;
    assert ListMatches(b, user);
    RecordedAssets(b, user);
    ListValueIsSum(b, limits, weights, user, List(b, user), AssetsOf(b, user));
  }

  lemma RecordedAssets(b: Book, user: AccountId)
    requires ListMatches(b, user)
    ensures forall a :: a in AssetsOf(b, user) <==> a in List(b, user)
  {
    forall a ensures a in AssetsOf(b, user) <==> (a, user) in b.records {
      if (a, user) in b.records {
        assert (a, user).0 in AssetsOf(b, user);
      }
    }
  }

  // ---------- exposure: claims per unit of index ----------

  ghost function ExposuresOf(b: Book, asset: AssetId): map<(AssetId, AccountId), real> {
    map k | k in b.records && k.0 == asset :: b.records[k].amount as real / b.records[k].index as real
  }

  /** The exact sum over users of amount / index; times a pool index it is what users may claim. */
  ghost function Exposure(b: Book, asset: AssetId): real {
    RealSum(ExposuresOf(b, asset))
  }

  ghost function ExposureOf(b: Book, asset: AssetId, user: AccountId): real {
    if (asset, user) in b.records
    then b.records[(asset, user)].amount as real / b.records[(asset, user)].index as real
    else 0.0
  }

  ghost predicate SameRecordsElsewhere(b: Book, b': Book, asset: AssetId, user: AccountId) {
    && (forall k | k != (asset, user) :: (k in b'.records <==> k in b.records))
    && (forall k | k != (asset, user) && k in b.records :: b'.records[k] == b.records[k])
  }

  /** Changing one record moves that asset's exposure by the record's own change, no other's. */
  lemma ExposureChange(b: Book, b': Book, asset: AssetId, user: AccountId, other: AssetId)
    requires SameRecordsElsewhere(b, b', asset, user)
    ensures Exposure(b', other) == Exposure(b, other)
            + (if other == asset then ExposureOf(b', asset, user) - ExposureOf(b, asset, user) else 0.0)
  {
    var m, m', k := ExposuresOf(b, other), ExposuresOf(b', other), (asset, user);
    if other != asset {
      assert m' == m;
    } else if k in b'.records {
      assert m' == m[k := ExposureOf(b', asset, user)];
      RealSumUpdate(m, k, ExposureOf(b', asset, user));
    } else {
      assert m' == m - {k};
      RealSumRemove(m, k);
    }
  }

  /** All users' claims at a pool index. */
  ghost function Claims(b: Book, asset: AssetId, index: Index): real {
    index as real * Exposure(b, asset)
  }

  /** What one user is owed or owes is within the claims of all. */
  lemma OwedWithinClaims(b: Book, limits: Limits, asset: AssetId, user: AccountId)
    requires asset in limits
    ensures Owed(b, limits, asset, user) as real <= Claims(b, asset, limits[asset])
  {
    var j, owed := limits[asset], Owed(b, limits, asset, user);
    ExposureOfWithin(b, asset, user);
    if (asset, user) in b.records {
      GrownExposure(b.records[(asset, user)], j);
    }
    assert owed as real / j as real <= Exposure(b, asset);
    assert owed as real == j as real * (owed as real / j as real);
  }

  lemma ExposureOfWithin(b: Book, asset: AssetId, user: AccountId)
    ensures 0.0 <= ExposureOf(b, asset, user) <= Exposure(b, asset)
  {
    ExposureNonNegative(b, asset);
    forall k | k in ExposuresOf(b, asset) ensures ExposuresOf(b, asset)[k] >= 0.0 {
      RatioNonNegative(b.records[k].amount, b.records[k].index);
    }
    if (asset, user) in b.records {
      RealSumAtLeast(ExposuresOf(b, asset), (asset, user));
      assert ExposuresOf(b, asset)[(asset, user)] == ExposureOf(b, asset, user);
    }
  }

  lemma ExposureNonNegative(b: Book, asset: AssetId)
    ensures Exposure(b, asset) >= 0.0
  {
    forall k | k in ExposuresOf(b, asset) ensures ExposuresOf(b, asset)[k] >= 0.0 {
      RatioNonNegative(b.records[k].amount, b.records[k].index);
    }
    RealSumNonNegative(ExposuresOf(b, asset));
  }

  lemma RatioNonNegative(n: nat, d: Index)
    ensures n as real / d as real >= 0.0
  {
  }

  /** Catching up floors twice, so a record's share of the pool never rises. */
  lemma GrownExposure(r: Record, j: Index)
    ensures Grown(r, j).amount as real / j as real <= r.amount as real / r.index as real
  {
    var q, a := Div(j, r.index), Grown(r, j).amount;
    FloorBounds(j * D, r.index);
    FloorBounds(q * r.amount, D);
    assert a * r.index <= r.amount * j by {
      MulLe(a * D, q * r.amount, r.index);
      MulLe(q * r.index, j * D, r.amount);
      Reorder(a, D, r.index);
      Reorder(q, r.amount, r.index);
      assert j * D * r.amount == r.amount * j * D by { Reorder(j, D, r.amount); }
      CancelLe(a * r.index, r.amount * j, D);
    }
    RatioLe(a, j, r.amount, r.index);
  }

  lemma RatioLe(a: nat, j: Index, b: nat, i: Index)
    requires a * i <= b * j
    ensures a as real / j as real <= b as real / i as real
  {
    var x, y, rj, ri := a as real, b as real, j as real, i as real;
    assert x * ri <= y * rj by {
      assert x * ri == (a * i) as real;
      assert y * rj == (b * j) as real;
    }
    assert x / rj * (rj * ri) == x * ri;
    assert y / ri * (rj * ri) == y * rj;
    if x / rj > y / ri {
      RealMulLt(y / ri, x / rj, rj * ri);
    }
  }

  lemma RealMulLt(x: real, y: real, z: real)
    requires x < y && 0.0 < z
    ensures x * z < y * z
  {
  }

  lemma RatioSum(a: nat, b: nat, j: Index)
    ensures (a + b) as real / j as real == a as real / j as real + b as real / j as real
  {
  }

  lemma AccrueUserExposure(b: Book, j: Index, asset: AssetId, user: AccountId, other: AssetId)
    ensures Exposure(AccrueUser(b, j, asset, user), other) <= Exposure(b, other)
  {
    var b' := AccrueUser(b, j, asset, user);
    ExposureChange(b, b', asset, user, other);
    if (asset, user) in b.records {
      GrownExposure(b.records[(asset, user)], j);
    }
  }

  /** A credit adds at most amount / index, a debit removes at least that. */
  lemma CreditExposure(b: Book, j: Index, asset: AssetId, user: AccountId, amount: nat, other: AssetId)
    requires 0 < amount
    ensures Exposure(Enlist(Credit(b, j, asset, user, amount), asset, user), other)
            <= Exposure(b, other) + (if other == asset then amount as real / j as real else 0.0)
  {
    var b' := Enlist(Credit(b, j, asset, user, amount), asset, user);
    ExposureChange(b, b', asset, user, other);
    if (asset, user) in b.records {
      GrownExposure(b.records[(asset, user)], j);
      RatioSum(Grown(b.records[(asset, user)], j).amount, amount, j);
    }
  }

  lemma DebitExposure(b: Book, j: Index, asset: AssetId, user: AccountId, amount: nat, other: AssetId)
    requires (asset, user) in b.records && DebitFits(b, j, asset, user, amount)
    ensures Exposure(Debit(b, j, asset, user, amount), other)
            <= Exposure(b, other) - (if other == asset then amount as real / j as real else 0.0)
  {
    var b' := Debit(b, j, asset, user, amount);
    var left := Grown(b.records[(asset, user)], j).amount - amount;
    ExposureChange(b, b', asset, user, other);
    GrownExposure(b.records[(asset, user)], j);
    RatioSum(left, amount, j);
    assert left == 0 ==> left as real / j as real == 0.0;
  }
}
