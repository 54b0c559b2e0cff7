// The other side of the drift: how far a pool's recorded totals can exceed what its users may claim.
// Catching a record up and accruing an index both floor, and a liquidation lowers user records but
// no pool total.

module LendingLosses {
  import opened Identifiers
  import opened FixedPoint
  import opened InterestModel
  import opened UserBooks
  import opened LendingMarket
  import opened LendingSteps
  import opened LendingInvariant
  import opened LendingDrift

  /** What one call can lose on a side whose claims are at most `peak`: the floor of the index on
      every claim, and the two floors of one catch-up. */
  ghost function Loss(peak: real): real {
    1.0 + 2.0 * (peak / D as real)
  }

  /** n losses and what liquidations moved, grown. */
  ghost function Slack(n: nat, peak: real, moved: nat, growth: real): real {
    (n as real * Loss(peak) + moved as real) * growth
  }

  /** Slack grown by an accrual, and what the accrual's own floor of the index loses. */
  ghost function AccruedSlack(slack: real, m: nat, claims: real): real {
    slack * Factor(m) + claims / D as real
  }

  /** The recorded total exceeds the claims by at most the slack. */
  ghost predicate Backed(total: nat, claims: real, slack: real) {
    total as real - claims <= slack
  }

  // ---------- a record that moved ----------

  /** A user's exact share of the claims. */
  ghost function Share(b: Book, asset: AssetId, user: AccountId, index: Index): real {
    index as real * ExposureOf(b, asset, user)
  }

  /** It exceeds the caught-up amount by the two floors at most. */
  ghost predicate ShareFits(share: real, owed: nat) {
    owed as real <= share <= owed as real + 1.0 + share / D as real
  }

  lemma ShareOf(b: Book, limits: Limits, asset: AssetId, user: AccountId)
    requires asset in limits && BookOk(b, limits)
    ensures ShareFits(Share(b, asset, user, limits[asset]), Owed(b, limits, asset, user))
  {
    if (asset, user) in b.records {
      assert RecordFits(b, limits, asset, user);
      GrownShare(b.records[(asset, user)], limits[asset]);
    }
  }

  lemma GrownShare(r: Record, j: Index)
    requires 0 < r.amount && r.index <= j
    ensures ShareFits(j as real * (r.amount as real / r.index as real), Grown(r, j).amount)
  {
    GrownWithinFloors(r, j);
    AmountWithinShare(r.amount, r.index, j);
    RatioOrder(r.amount as real, j as real * (r.amount as real / r.index as real));
  }

  lemma GrownWithinFloors(r: Record, j: Index)
    requires 0 < r.amount
    ensures var share := j as real * (r.amount as real / r.index as real);
            Grown(r, j).amount as real <= share <= Grown(r, j).amount as real + 1.0 + r.amount as real / D as real
  {
    GrownExposure(r, j);
    GrownLosesLittle(r, j);
  }

  lemma AmountWithinShare(amount: nat, i: Index, j: Index)
    requires i <= j
    ensures amount as real <= j as real * (amount as real / i as real)
  {
    var q := amount as real / i as real;
    RatioNonNegative(amount, i);
    assert amount as real == i as real * q;
    RealLe(i as real, j as real, q);
  }

  lemma RatioOrder(x: real, y: real)
    requires x <= y
    ensures x / D as real <= y / D as real
  {
  }

  // ---------- one side of a call ----------

  /** At one index, the claims followed a change of the views by `delta`, less at most one catch-up. */
  ghost predicate ClaimsFollowed(claims: real, claims': real, delta: int) {
    claims + delta as real <= claims' + 1.0 + claims / D as real
  }

  /** A call that changed one record, and its view by `delta`, seen from the claims on `asset`. */
  lemma MovedClaims(b: Book, b': Book, limits: Limits, moved: AssetId, user: AccountId, delta: int, asset: AssetId)
    requires BookOk(b, limits) && BookOk(b', limits) && SameElsewhere(b, b', moved, user)
    requires moved in limits ==> Owed(b', limits, moved, user) == Owed(b, limits, moved, user) + delta
    requires asset in limits
    ensures ClaimsFollowed(Claims(b, asset, limits[asset]), Claims(b', asset, limits[asset]), if asset == moved then delta else 0)
  {
    ExposureChange(b, b', moved, user, asset);
    if asset == moved {
      ShareOf(b, limits, asset, user);
      ShareOf(b', limits, asset, user);
      OwnShareMoves(b, b', asset, user, limits[asset], Owed(b, limits, asset, user), Owed(b', limits, asset, user));
    } else {
      StillFollowed(b, b', asset, limits[asset]);
    }
  }

  lemma OwnShareMoves(b: Book, b': Book, asset: AssetId, user: AccountId, index: Index, owed: nat, owed': nat)
    requires Exposure(b', asset) == Exposure(b, asset) + ExposureOf(b', asset, user) - ExposureOf(b, asset, user)
    requires ShareFits(Share(b, asset, user, index), owed) && ShareFits(Share(b', asset, user, index), owed')
    ensures ClaimsFollowed(Claims(b, asset, index), Claims(b', asset, index), owed' - owed)
  {
    ShareWithinClaims(b, asset, user, index);
    ClaimsChange(b, b', asset, user, index);
    SharesMove(Claims(b, asset, index), Claims(b', asset, index), Share(b, asset, user, index), Share(b', asset, user, index), owed, owed');
  }

  lemma StillFollowed(b: Book, b': Book, asset: AssetId, index: Index)
    requires Exposure(b', asset) == Exposure(b, asset)
    ensures ClaimsFollowed(Claims(b, asset, index), Claims(b', asset, index), 0)
  {
    ClaimsNonNegative(b, asset, index);
  }

  lemma ClaimsChange(b: Book, b': Book, asset: AssetId, user: AccountId, index: Index)
    requires Exposure(b', asset) == Exposure(b, asset) + ExposureOf(b', asset, user) - ExposureOf(b, asset, user)
    ensures Claims(b', asset, index) == Claims(b, asset, index) + Share(b', asset, user, index) - Share(b, asset, user, index)
  {
    Distribute(index as real, Exposure(b, asset), ExposureOf(b', asset, user), ExposureOf(b, asset, user));
  }

  lemma Distribute(j: real, x: real, y: real, z: real)
    ensures j * (x + y - z) == j * x + j * y - j * z
  {
  }

  lemma ClaimsNonNegative(b: Book, asset: AssetId, index: Index)
    ensures 0.0 <= Claims(b, asset, index)
  {
    ExposureNonNegative(b, asset);
    RealLe(0.0, Exposure(b, asset), index as real);
  }

  lemma ShareWithinClaims(b: Book, asset: AssetId, user: AccountId, index: Index)
    ensures Share(b, asset, user, index) <= Claims(b, asset, index)
  {
    ExposureOfWithin(b, asset, user);
    RealLe(ExposureOf(b, asset, user), Exposure(b, asset), index as real);
  }

  lemma SharesMove(claims: real, claims': real, share: real, share': real, owed: nat, owed': nat)
    requires claims' == claims + share' - share && share <= claims
    requires ShareFits(share, owed) && ShareFits(share', owed')
    ensures ClaimsFollowed(claims, claims', owed' - owed)
  {
  }

  // ---------- a pool against the claims ----------

  /** One more loss, and what a liquidation moved, on a slack that grows by r. */
  lemma SlackGrows(n: nat, peak: real, peak': real, moved: nat, extra: nat, growth: real, r: real, lost: real)
    requires growth >= 1.0 && r >= 1.0 && 0.0 <= peak <= peak'
    requires lost <= Loss(peak') + extra as real
    ensures Slack(n, peak, moved, growth) * r + lost <= Slack(n + 1, peak', moved + extra, growth * r)
  {
    RatioOrder(peak, peak');
    RatioOrder(0.0, peak');
    AtLeastOne(growth, r);
    ScaledSlack(n as real, Loss(peak), Loss(peak'), moved as real, extra as real, growth, r);
  }

  lemma ScaledSlack(n: real, c: real, c': real, q: real, x: real, growth: real, r: real)
    requires 0.0 <= n && 0.0 <= c <= c' && 0.0 <= q && 0.0 <= x && growth * r >= 1.0
    ensures (n * c + q) * growth * r + (c' + x) <= ((n + 1.0) * c' + (q + x)) * (growth * r)
  {
    var g := growth * r;
    assert n * c <= n * c' by { RealLe(c, c', n); }
    RealLe(n * c + q, n * c' + q, g);
    RealLe(1.0, g, c' + x);
    assert (n * c + q) * growth * r == (n * c + q) * g;
    assert (n + 1.0) * c' + (q + x) == (n * c' + q) + (c' + x);
    assert ((n * c' + q) + (c' + x)) * g == (n * c' + q) * g + (c' + x) * g;
  }

  /** A loss at the index j is no more at a smaller index. */
  lemma LossAtIndex(index: Index, j: Index, e: real, e': real, lost: real)
    requires index <= j && 0.0 <= lost
    requires j as real * e <= j as real * e' + lost
    ensures index as real * e <= index as real * e' + lost
  {
    var i, k := index as real, j as real;
    if e <= e' {
      RealLe(e, e', i);
    } else {
      RealLe(i, k, e - e');
      assert k * (e - e') == k * e - k * e';
      assert i * (e - e') == i * e - i * e';
    }
  }

  /** A pool that was not stored: its total and index stay, its records were caught up to j. */
  lemma KeptStaysBacked(b: Book, b': Book, a: AssetId, index: Index, j: Index, total: nat, n: nat, peak: real, peak': real, moved: nat, growth: real)
    requires Backed(total, Claims(b, a, index), Slack(n, peak, moved, growth)) && index <= j && growth >= 1.0
    requires ClaimsFollowed(Claims(b, a, j), Claims(b', a, j), 0)
    requires 0.0 <= peak <= peak' && Claims(b, a, j) <= peak'
    ensures Backed(total, Claims(b', a, index), Slack(n + 1, peak', moved, growth))
  {
    var claims := Claims(b, a, j);
    var lost := 1.0 + claims / D as real;
    ClaimsNonNegative(b, a, j);
    RatioOrder(0.0, claims);
    RatioOrder(claims, peak');
    RatioOrder(0.0, peak');
    ClaimsAtIndex(b, b', a, index, j, lost);
    OneMoreLoss(n, peak, peak', moved, growth, lost);
  }

  lemma ClaimsAtIndex(b: Book, b': Book, a: AssetId, index: Index, j: Index, lost: real)
    requires index <= j && 0.0 <= lost && Claims(b, a, j) <= Claims(b', a, j) + lost
    ensures Claims(b, a, index) <= Claims(b', a, index) + lost
  {
    LossAtIndex(index, j, Exposure(b, a), Exposure(b', a), lost);
  }

  lemma OneMoreLoss(n: nat, peak: real, peak': real, moved: nat, growth: real, lost: real)
    requires growth >= 1.0 && 0.0 <= peak <= peak' && lost <= Loss(peak')
    ensures Slack(n, peak, moved, growth) + lost <= Slack(n + 1, peak', moved, growth)
  {
    SlackGrows(n, peak, peak', moved, 0, growth, 1.0, lost);
  }

  /** Nothing happened: the slack only grows. */
  lemma StaysBacked(total: nat, claims: real, n: nat, peak: real, peak': real, moved: nat, growth: real)
    requires Backed(total, claims, Slack(n, peak, moved, growth))
    requires growth >= 1.0 && 0.0 <= peak <= peak'
    ensures Backed(total, claims, Slack(n + 1, peak', moved, growth))
  {
    RatioOrder(0.0, peak');
    OneMoreLoss(n, peak, peak', moved, growth, 0.0);
  }

  /** Accruing floors the total down as well, so only the index can lose: less than one index unit
      on every claim, which is at most claims / D. */
  lemma AccrualLoses(b: Book, a: AssetId, total: nat, index: Index, j: Index, m: nat, slack: real)
    requires D <= m && j == Mul(index, m) && D <= j
    requires Backed(total, Claims(b, a, index), slack)
    ensures Backed(MulInt(m, total), Claims(b, a, j), AccruedSlack(slack, m, Claims(b, a, j)))
  {
    ExposureNonNegative(b, a);
    FloorsDown(total, index, m);
    AccruedGap(total as real, MulInt(m, total) as real, index as real, j as real, Exposure(b, a), Factor(m), slack);
  }

  /** A total and an index that grew by r, the total rounded down, the index by less than one unit. */
  lemma AccruedGap(total: real, total': real, i: real, j: real, e: real, r: real, slack: real)
    requires 0.0 <= e && 0.0 <= r && D as real <= j
    requires total' <= total * r && i * r <= j + 1.0 && total - i * e <= slack
    ensures total' - j * e <= slack * r + j * e / D as real
  {
    RealLe(i * r, j + 1.0, e);
    RealLe(total - i * e, slack, r);
    RealLe(D as real, j, e);
    assert (total - i * e) * r == total * r - i * r * e;
    assert (j + 1.0) * e == j * e + e;
    RatioOrder(D as real * e, j * e);
    assert D as real * e / D as real == e;
  }

  lemma FloorsDown(total: nat, index: nat, m: nat)
    ensures index as real * Factor(m) <= Mul(index, m) as real + 1.0
    ensures MulInt(m, total) as real <= total as real * Factor(m)
  {
    FloorsAgainstGrowth(index, total, m);
    assert m * index == index * m && total * m == m * total;
  }

  /** A stored pool: accrued to j, its total moved with the view, or further by what was seized. */
  lemma StoredStaysBacked(total': nat, claims: real, claims': real, delta: int, extra: nat, accrued: nat, n: nat, peak: real, peak': real, moved: nat, growth: real, m: nat)
    requires Backed(accrued, claims, AccruedSlack(Slack(n, peak, moved, growth), m, claims))
    requires ClaimsFollowed(claims, claims', delta) && total' == accrued + delta + extra
    requires growth >= 1.0 && D <= m && 0.0 <= peak <= peak' && claims <= peak'
    ensures Backed(total', claims', Slack(n + 1, peak', moved + extra, growth * Factor(m)))
  {
    FactorAtLeastOne(m);
    RatioOrder(claims, peak');
    SlackGrows(n, peak, peak', moved, extra, growth, Factor(m), 1.0 + 2.0 * (claims / D as real) + extra as real);
  }

  lemma FactorAtLeastOne(m: nat)
    requires D <= m
    ensures Factor(m) >= 1.0 && Factor(D) == 1.0
  {
  }

  // ---------- both sides of a pool ----------

  /** How many lending calls have worked on a pool, and the highest claims on it that any of them met. */
  datatype Losses = Losses(calls: nat, supplyPeak: real, debtPeak: real)

  /** Recorded supply and debt exceed the claims by at most what the calls lost and liquidations moved. */
  ghost predicate PoolBacked(m: Market, a: AssetId, s: Losses, t: Tally)
    requires a in m.pools
  {
    && SideBacked(m.pools[a].supply, Claims(m.supplies, a, m.pools[a].totalSupplyIndex), s.calls, s.supplyPeak, t.seized, t.supplyGrowth)
    && SideBacked(m.pools[a].debt, Claims(m.debts, a, m.pools[a].totalDebtIndex), s.calls, s.debtPeak, t.paid, t.debtGrowth)
  }

  ghost predicate SideBacked(total: nat, claims: real, n: nat, peak: real, moved: nat, growth: real) {
    0.0 <= peak && 1.0 <= growth && Backed(total, claims, Slack(n, peak, moved, growth))
  }

  ghost function Max(x: real, y: real): real {
    if x < y then y else x
  }

  /** One more call, made at `now`: the claims it met are those at the effective indices. */
  ghost function NextLosses(s: Losses, m: Market, now: nat, a: AssetId): Losses {
    if a in m.pools
    then Losses(s.calls + 1, Max(s.supplyPeak, Claims(m.supplies, a, EffectiveSupplyIndex(m.pools[a], now))),
                Max(s.debtPeak, Claims(m.debts, a, EffectiveDebtIndex(m.pools[a], now))))
    else s.(calls := s.calls + 1)
  }

  /** A change of one asset as another one sees it. */
  function Seen(delta: int, asset: AssetId, a: AssetId): int {
    if a == asset then delta else 0
  }

  /** The claims on `a` followed the views on both sides. */
  ghost predicate SidesFollowed(m: Market, m': Market, now: nat, a: AssetId, ds: int, dd: int)
    requires a in m.pools
  {
    var js, jd := EffectiveSupplyIndex(m.pools[a], now), EffectiveDebtIndex(m.pools[a], now);
    && ClaimsFollowed(Claims(m.supplies, a, js), Claims(m'.supplies, a, js), ds)
    && ClaimsFollowed(Claims(m.debts, a, jd), Claims(m'.debts, a, jd), dd)
  }

  lemma EffectFollowed(m: Market, m': Market, now: nat, a: AssetId, user: AccountId, get: AssetId, supplied: int, pay: AssetId, owed: int)
    requires Inv(m, now) && a in m.pools && Effect(m, m', now, user, get, supplied, pay, owed)
    ensures SidesFollowed(m, m', now, a, Seen(supplied, get, a), Seen(owed, pay, a))
  {
    var sc := ScaleOf(m, now);
    MovedClaims(m.supplies, m'.supplies, sc.supply, get, user, supplied, a);
    MovedClaims(m.debts, m'.debts, sc.debt, pay, user, owed, a);
  }

  /** Pool `p` stayed, or was stored as accrued to `r`, with totals that followed the views except for
      what a liquidation seized and paid. */
  ghost predicate PoolFollowed(p: Pool, r: Pool, q: Pool, ds: int, dd: int, seized: nat, paid: nat) {
    || (q == p && ds == 0 && dd == 0 && seized == 0 && paid == 0)
    || (q == r.(supply := q.supply, debt := q.debt) && q.supply == r.supply + ds + seized && q.debt == r.debt + dd + paid)
  }

  lemma StoredSide(b: Book, b': Book, a: AssetId, total: nat, total': nat, index: Index, j: Index, m: nat, delta: int, extra: nat,
                   n: nat, peak: real, peak': real, moved: nat, growth: real)
    requires D <= m && j == Mul(index, m) && D <= j && total' == MulInt(m, total) + delta + extra
    requires Backed(total, Claims(b, a, index), Slack(n, peak, moved, growth)) && growth >= 1.0
    requires ClaimsFollowed(Claims(b, a, j), Claims(b', a, j), delta)
    requires 0.0 <= peak <= peak' && Claims(b, a, j) <= peak'
    ensures Backed(total', Claims(b', a, j), Slack(n + 1, peak', moved + extra, growth * Factor(m)))
  {
    AccrualLoses(b, a, total, index, j, m, Slack(n, peak, moved, growth));
    StoredStaysBacked(total', Claims(b, a, j), Claims(b', a, j), delta, extra, MulInt(m, total), n, peak, peak', moved, growth, m);
  }

  lemma PendingCount(t: Tally, p: Pool, q: Pool, now: nat)
    requires p.lastUpdated <= now == q.lastUpdated
    ensures Count(t, p, q).supplyGrowth == t.supplyGrowth * Factor(SupplyMultiplier(p, Elapsed(p, now)))
    ensures Count(t, p, q).debtGrowth == t.debtGrowth * Factor(DebtMultiplier(p, Elapsed(p, now)))
    ensures Count(t, p, q).paid == t.paid && Count(t, p, q).seized == t.seized
  {
    NoTimeNoGrowth(p);
    FactorAtLeastOne(D);
  }

  /** So a call whose claims and pool followed its views keeps the pool backed, one loss later. */
  lemma FollowedStaysBacked(m: Market, m': Market, now: nat, a: AssetId, ds: int, dd: int, seized: nat, paid: nat, s: Losses, t: Tally)
    requires a in m.pools && a in m'.pools && PoolOk(m.pools[a], now)
    requires SidesFollowed(m, m', now, a, ds, dd)
    requires PoolFollowed(m.pools[a], Accrue(m.pools[a], now), m'.pools[a], ds, dd, seized, paid)
    requires PoolBacked(m, a, s, t)
    ensures PoolBacked(m', a, NextLosses(s, m, now, a),
                       Count(t, m.pools[a], m'.pools[a]).(paid := t.paid + paid, seized := t.seized + seized))
  {
    var p, q, s' := m.pools[a], m'.pools[a], NextLosses(s, m, now, a);
    var c := Count(t, p, q);
    PoolSides(p, q, now, ds, dd, seized, paid, t);
    SideStaysBacked(m.supplies, m'.supplies, a, p.supply, q.supply, p.totalSupplyIndex, q.totalSupplyIndex, EffectiveSupplyIndex(p, now),
                    SupplyMultiplier(p, Elapsed(p, now)), ds, seized, s.calls, s.supplyPeak, s'.supplyPeak, t.seized, t.supplyGrowth, c.supplyGrowth);
    SideStaysBacked(m.debts, m'.debts, a, p.debt, q.debt, p.totalDebtIndex, q.totalDebtIndex, EffectiveDebtIndex(p, now),
                    DebtMultiplier(p, Elapsed(p, now)), dd, paid, s.calls, s.debtPeak, s'.debtPeak, t.paid, t.debtGrowth, c.debtGrowth);
  }

  /** A call that changed neither books nor pools only makes the slack grow. */
  lemma UntouchedStaysBacked(m: Market, m': Market, now: nat, a: AssetId, s: Losses, t: Tally)
    requires a in m.pools && m'.pools == m.pools && m'.supplies == m.supplies && m'.debts == m.debts
    requires PoolBacked(m, a, s, t)
    ensures PoolBacked(m', a, NextLosses(s, m, now, a), t)
  {
    var p, s' := m.pools[a], NextLosses(s, m, now, a);
    StaysBacked(p.supply, Claims(m.supplies, a, p.totalSupplyIndex), s.calls, s.supplyPeak, s'.supplyPeak, t.seized, t.supplyGrowth);
    StaysBacked(p.debt, Claims(m.debts, a, p.totalDebtIndex), s.calls, s.debtPeak, s'.debtPeak, t.paid, t.debtGrowth);
  }

  /** What the pool of a call looks like on one side: kept, or accrued by `m` to the index j. */
  ghost predicate SideFollowed(total: nat, total': nat, index: Index, index': Index, j: Index, m: nat, delta: int, extra: nat, growth: real, growth': real) {
    || (total' == total && index' == index && delta == 0 && extra == 0 && growth' == growth)
    || (total' == MulInt(m, total) + delta + extra && index' == j && growth' == growth * Factor(m))
  }

  lemma SideStaysBacked(b: Book, b': Book, a: AssetId, total: nat, total': nat, index: Index, index': Index, j: Index, m: nat, delta: int, extra: nat,
                        n: nat, peak: real, peak': real, moved: nat, growth: real, growth': real)
    requires D <= m && j == Mul(index, m) && D <= j && index <= j
    requires SideFollowed(total, total', index, index', j, m, delta, extra, growth, growth')
    requires SideBacked(total, Claims(b, a, index), n, peak, moved, growth)
    requires ClaimsFollowed(Claims(b, a, j), Claims(b', a, j), delta)
    requires peak' == Max(peak, Claims(b, a, j))
    ensures SideBacked(total', Claims(b', a, index'), n + 1, peak', moved + extra, growth')
  {
    if total' == total && index' == index && delta == 0 && extra == 0 && growth' == growth {
      KeptStaysBacked(b, b', a, index, j, total, n, peak, peak', moved, growth);
    } else {
      FactorAtLeastOne(m);
      AtLeastOne(growth, Factor(m));
      StoredSide(b, b', a, total, total', index, j, m, delta, extra, n, peak, peak', moved, growth);
    }
  }

  lemma PoolSides(p: Pool, q: Pool, now: nat, ds: int, dd: int, seized: nat, paid: nat, t: Tally)
    requires PoolOk(p, now) && PoolFollowed(p, Accrue(p, now), q, ds, dd, seized, paid)
    ensures var ms, md, c := SupplyMultiplier(p, Elapsed(p, now)), DebtMultiplier(p, Elapsed(p, now)), Count(t, p, q);
            && D <= ms && D <= md && D <= EffectiveSupplyIndex(p, now) && D <= EffectiveDebtIndex(p, now)
            && EffectiveSupplyIndex(p, now) == Mul(p.totalSupplyIndex, ms) && EffectiveDebtIndex(p, now) == Mul(p.totalDebtIndex, md)
            && SideFollowed(p.supply, q.supply, p.totalSupplyIndex, q.totalSupplyIndex, EffectiveSupplyIndex(p, now), ms, ds, seized, t.supplyGrowth, c.supplyGrowth)
            && SideFollowed(p.debt, q.debt, p.totalDebtIndex, q.totalDebtIndex, EffectiveDebtIndex(p, now), md, dd, paid, t.debtGrowth, c.debtGrowth)
            && c.paid == t.paid && c.seized == t.seized
  {
    AccruedFields(p, now);
    AccrueKeepsPoolOk(p, now);
    EffectiveIsAccrued(p, now, 0, 0);
    if q != p {
      PendingCount(t, p, q, now);
    }
  }

  // ---------- each call is followed ----------

  /** The pools after a call done on `asset` alone, whose accrued pool is `pool`. */
  ghost predicate Commits(pools: map<AssetId, Pool>, pools': map<AssetId, Pool>, done: bool, asset: AssetId, pool: Pool, supplied: int, owed: int) {
    if done
    then 0 <= pool.supply + supplied && 0 <= pool.debt + owed
         && pools' == pools[asset := pool.(supply := pool.supply + supplied, debt := pool.debt + owed)]
    else supplied == 0 && owed == 0 && pools' == pools
  }

  lemma CommitFollowed(pools: map<AssetId, Pool>, pools': map<AssetId, Pool>, done: bool, asset: AssetId, pool: Pool, supplied: int, owed: int, a: AssetId, r: Pool)
    requires a in pools && (a == asset ==> r == pool) && Commits(pools, pools', done, asset, pool, supplied, owed)
    ensures a in pools'
    ensures PoolFollowed(pools[a], r, pools'[a], Seen(supplied, asset, a), Seen(owed, asset, a), 0, 0)
  {
  }

  lemma SupplyCommits(m: Market, pool: Pool, user: AccountId, asset: AssetId, amount: nat)
    ensures var (m', out) := TakeIn(m, pool, user, asset, amount);
            Commits(m.pools, m'.pools, out == Done, asset, pool, Added(out, amount), 0)
  {
  }

  lemma WithdrawCommits(m: Market, pool: Pool, sc: Scale, user: AccountId, asset: AssetId, amount: nat)
    requires BooksOk(m, sc) && Current(sc, asset, pool) && WithdrawPool(m, pool, sc, user, asset, amount).1 != Panicked
    ensures var (m', out) := WithdrawPool(m, pool, sc, user, asset, amount);
            Commits(m.pools, m'.pools, out == Done, asset, pool, Taken(out, Min(amount, Owed(m.supplies, sc.supply, asset, user))), 0)
  {
    var m1 := AccrueSupplier(m, pool, user, asset);
    AccrueSupplierMoves(m, sc, pool, user, asset, asset);
    if (asset, user) in m1.supplies.records {
      var paid := Min(amount, Owed(m.supplies, sc.supply, asset, user));
      if WithdrawCheck(m1, pool, sc, user, asset, paid) == Done {
        WithdrawCheckIs(m1, pool, sc, user, asset, paid);
      }
    }
  }

  lemma BorrowCommits(m: Market, pool: Pool, sc: Scale, user: AccountId, asset: AssetId, amount: nat)
    ensures var (m', out) := BorrowPool(m, pool, sc, user, asset, amount);
            Commits(m.pools, m'.pools, out == Done, asset, pool, 0, Added(out, amount))
  {
    BorrowTotals(m, pool, sc, user, asset, amount);
  }

  lemma RepayCommits(m: Market, pool: Pool, sc: Scale, user: AccountId, asset: AssetId, amount: nat)
    requires BooksOk(m, sc) && Current(sc, asset, pool) && RepayPool(m, pool, user, asset, amount).1 != Panicked
    ensures var (m', out) := RepayPool(m, pool, user, asset, amount);
            Commits(m.pools, m'.pools, out == Done, asset, pool, 0, Taken(out, Min(amount, Owed(m.debts, sc.debt, asset, user))))
  {
    AccrueBorrowerMoves(m, sc, pool, user, asset, asset);
  }

  /** A liquidation moves the target's views and no total; the difference is what it seized and paid. */
  lemma LiquidateFollowed(m: Market, payPool: Pool, getPool: Pool, sc: Scale, user: AccountId, target: AccountId, pay: AssetId, get: AssetId, amount: nat,
                          seized: nat, paid: nat, a: AssetId, r: Pool)
    requires a in m.pools && (a == pay ==> r == payPool) && (a == get ==> r == getPool)
    ensures var (m', out) := LiquidatePools(m, payPool, getPool, sc, user, target, pay, get, amount);
            && a in m'.pools
            && PoolFollowed(m.pools[a], r, m'.pools[a], Seen(Taken(out, seized), get, a), Seen(Taken(out, paid), pay, a),
                            Booked(out, seized, get, a), Booked(out, paid, pay, a))
  {
    LiquidateTotals(m, payPool, getPool, sc, user, target, pay, get, amount);
  }

  /** What a liquidation that is done moves past the totals of `a`. */
  function Booked(out: Outcome, n: nat, asset: AssetId, a: AssetId): nat {
    if out == Done && a == asset then n else 0
  }

  lemma CommittedStaysBacked(m: Market, m': Market, now: nat, done: bool, asset: AssetId, supplied: int, owed: int, a: AssetId, s: Losses, t: Tally)
    requires a in m.pools && asset in m.pools && PoolOk(m.pools[a], now)
    requires Commits(m.pools, m'.pools, done, asset, Accrue(m.pools[asset], now), supplied, owed)
    requires SidesFollowed(m, m', now, a, Seen(supplied, asset, a), Seen(owed, asset, a))
    requires PoolBacked(m, a, s, t)
    ensures a in m'.pools
    ensures PoolBacked(m', a, NextLosses(s, m, now, a), Count(t, m.pools[a], m'.pools[a]).(paid := t.paid, seized := t.seized))
  {
    CommitFollowed(m.pools, m'.pools, done, asset, Accrue(m.pools[asset], now), supplied, owed, a, Accrue(m.pools[a], now));
    FollowedStaysBacked(m, m', now, a, Seen(supplied, asset, a), Seen(owed, asset, a), 0, 0, s, t);
  }

  // ---------- whole calls ----------

  lemma SupplyStaysBacked(m: Market, now: nat, user: AccountId, asset: AssetId, amount: nat, a: AssetId, s: Losses, t: Tally)
    requires Inv(m, now) && asset in m.pools && a in m.pools && PoolBacked(m, a, s, t)
    ensures var m' := Supply(m, now, user, asset, amount).0;
            a in m'.pools && PoolBacked(m', a, NextLosses(s, m, now, a), Count(t, m.pools[a], m'.pools[a]).(paid := t.paid, seized := t.seized))
  {
    var (m', out) := Supply(m, now, user, asset, amount);
    assert PoolOk(m.pools[a], now);
    SupplySides(m, now, user, asset, amount, a);
    SupplyCommits(m, Accrue(m.pools[asset], now), user, asset, amount);
    CommittedStaysBacked(m, m', now, out == Done, asset, Added(out, amount), 0, a, s, t);
  }

  lemma SupplySides(m: Market, now: nat, user: AccountId, asset: AssetId, amount: nat, a: AssetId)
    requires Inv(m, now) && a in m.pools
    ensures var (m', out) := Supply(m, now, user, asset, amount);
            SidesFollowed(m, m', now, a, Seen(Added(out, amount), asset, a), Seen(0, asset, a))
  {
    var (m', out) := Supply(m, now, user, asset, amount);
    SupplyEffect(m, now, user, asset, amount);
    EffectFollowed(m, m', now, a, user, asset, Added(out, amount), asset, 0);
  }

  lemma WithdrawStaysBacked(m: Market, now: nat, user: AccountId, asset: AssetId, amount: nat, a: AssetId, s: Losses, t: Tally)
    requires Inv(m, now) && asset in m.pools && a in m.pools && PoolBacked(m, a, s, t)
    requires Withdraw(m, now, user, asset, amount).1 != Panicked
    ensures var m' := Withdraw(m, now, user, asset, amount).0;
            a in m'.pools && PoolBacked(m', a, NextLosses(s, m, now, a), Count(t, m.pools[a], m'.pools[a]).(paid := t.paid, seized := t.seized))
  {
    var (m', out) := Withdraw(m, now, user, asset, amount);
    assert PoolOk(m.pools[a], now);
    WithdrawSides(m, now, user, asset, amount, a);
    AccruedIsCurrent(m, now, asset);
    WithdrawCommits(m, Accrue(m.pools[asset], now), ScaleOf(m, now), user, asset, amount);
    CommittedStaysBacked(m, m', now, out == Done, asset, Taken(out, Min(amount, SupplyOwed(m, now, asset, user))), 0, a, s, t);
  }

  lemma WithdrawSides(m: Market, now: nat, user: AccountId, asset: AssetId, amount: nat, a: AssetId)
    requires Inv(m, now) && a in m.pools
    ensures var (m', out) := Withdraw(m, now, user, asset, amount);
            SidesFollowed(m, m', now, a, Seen(Taken(out, Min(amount, SupplyOwed(m, now, asset, user))), asset, a), Seen(0, asset, a))
  {
    var (m', out) := Withdraw(m, now, user, asset, amount);
    WithdrawEffect(m, now, user, asset, amount);
    EffectFollowed(m, m', now, a, user, asset, Taken(out, Min(amount, SupplyOwed(m, now, asset, user))), asset, 0);
  }

  lemma BorrowStaysBacked(m: Market, now: nat, user: AccountId, asset: AssetId, amount: nat, a: AssetId, s: Losses, t: Tally)
    requires Inv(m, now) && asset in m.pools && a in m.pools && PoolBacked(m, a, s, t)
    ensures var m' := Borrow(m, now, user, asset, amount).0;
            a in m'.pools && PoolBacked(m', a, NextLosses(s, m, now, a), Count(t, m.pools[a], m'.pools[a]).(paid := t.paid, seized := t.seized))
  {
    var (m', out) := Borrow(m, now, user, asset, amount);
    assert PoolOk(m.pools[a], now);
    BorrowSides(m, now, user, asset, amount, a);
    BorrowCommits(m, Accrue(m.pools[asset], now), ScaleOf(m, now), user, asset, amount);
    CommittedStaysBacked(m, m', now, out == Done, asset, 0, Added(out, amount), a, s, t);
  }

  lemma BorrowSides(m: Market, now: nat, user: AccountId, asset: AssetId, amount: nat, a: AssetId)
    requires Inv(m, now) && a in m.pools
    ensures var (m', out) := Borrow(m, now, user, asset, amount);
            SidesFollowed(m, m', now, a, Seen(0, asset, a), Seen(Added(out, amount), asset, a))
  {
    var (m', out) := Borrow(m, now, user, asset, amount);
    BorrowEffect(m, now, user, asset, amount);
    EffectFollowed(m, m', now, a, user, asset, 0, asset, Added(out, amount));
  }

  lemma RepayStaysBacked(m: Market, now: nat, user: AccountId, asset: AssetId, amount: nat, a: AssetId, s: Losses, t: Tally)
    requires Inv(m, now) && asset in m.pools && a in m.pools && PoolBacked(m, a, s, t)
    requires Repay(m, now, user, asset, amount).1 != Panicked
    ensures var m' := Repay(m, now, user, asset, amount).0;
            a in m'.pools && PoolBacked(m', a, NextLosses(s, m, now, a), Count(t, m.pools[a], m'.pools[a]).(paid := t.paid, seized := t.seized))
  {
    var (m', out) := Repay(m, now, user, asset, amount);
    assert PoolOk(m.pools[a], now);
    RepaySides(m, now, user, asset, amount, a);
    AccruedIsCurrent(m, now, asset);
    RepayCommits(m, Accrue(m.pools[asset], now), ScaleOf(m, now), user, asset, amount);
    CommittedStaysBacked(m, m', now, out == Done, asset, 0, Taken(out, Min(amount, DebtOwed(m, now, asset, user))), a, s, t);
  }

  lemma RepaySides(m: Market, now: nat, user: AccountId, asset: AssetId, amount: nat, a: AssetId)
    requires Inv(m, now) && a in m.pools && Repay(m, now, user, asset, amount).1 != Panicked
    ensures var (m', out) := Repay(m, now, user, asset, amount);
            SidesFollowed(m, m', now, a, Seen(0, asset, a), Seen(Taken(out, Min(amount, DebtOwed(m, now, asset, user))), asset, a))
  {
    var (m', out) := Repay(m, now, user, asset, amount);
    RepayEffect(m, now, user, asset, amount);
    EffectFollowed(m, m', now, a, user, asset, 0, asset, Taken(out, Min(amount, DebtOwed(m, now, asset, user))));
  }

  /** The amounts of a liquidation that is done. */
  ghost predicate Amounts(m: Market, now: nat, user: AccountId, target: AccountId, pay: AssetId, get: AssetId, amount: nat, seized: nat, paid: nat) {
    Liquidate(m, now, user, target, pay, get, amount).1 == Done ==>
      && CanSeize(m, target, pay, get)
      && seized == SeizureOf(m, now, target, pay, get, amount)
      && paid == PaymentOf(m, now, target, pay, get, amount)
  }

  lemma LiquidateSides(m: Market, now: nat, user: AccountId, target: AccountId, pay: AssetId, get: AssetId, amount: nat, seized: nat, paid: nat, a: AssetId)
    requires Inv(m, now) && a in m.pools && Amounts(m, now, user, target, pay, get, amount, seized, paid)
    ensures var (m', out) := Liquidate(m, now, user, target, pay, get, amount);
            SidesFollowed(m, m', now, a, Seen(Taken(out, seized), get, a), Seen(Taken(out, paid), pay, a))
  {
    var (m', out) := Liquidate(m, now, user, target, pay, get, amount);
    LiquidateEffect(m, now, user, target, pay, get, amount);
    EffectFollowed(m, m', now, a, target, get, Taken(out, seized), pay, Taken(out, paid));
  }

  lemma LiquidatePool(m: Market, now: nat, user: AccountId, target: AccountId, pay: AssetId, get: AssetId, amount: nat, seized: nat, paid: nat, a: AssetId)
    requires pay in m.pools && get in m.pools && m.pools[get].canBeCollateral && a in m.pools
    ensures var (m', out) := Liquidate(m, now, user, target, pay, get, amount);
            && a in m'.pools
            && PoolFollowed(m.pools[a], Accrue(m.pools[a], now), m'.pools[a], Seen(Taken(out, seized), get, a), Seen(Taken(out, paid), pay, a),
                            Booked(out, seized, get, a), Booked(out, paid, pay, a))
  {
    LiquidateFollowed(m, Accrue(m.pools[pay], now), Accrue(m.pools[get], now), ScaleOf(m, now), user, target, pay, get, amount, seized, paid, a, Accrue(m.pools[a], now));
  }

  // ---------- calls on other pools ----------

  /** Pool `a` and the claims on it stayed. */
  ghost predicate SameFor(m: Market, m': Market, a: AssetId) {
    && a in m.pools && a in m'.pools && m'.pools[a] == m.pools[a]
    && Exposure(m'.supplies, a) == Exposure(m.supplies, a) && Exposure(m'.debts, a) == Exposure(m.debts, a)
  }

  lemma SameStaysBacked(m: Market, m': Market, a: AssetId, s: Losses, t: Tally)
    requires SameFor(m, m', a) && PoolBacked(m, a, s, t)
    ensures PoolBacked(m', a, s, t)
  {
    hide SideBacked;
    var p := m.pools[a];
    assert Claims(m'.supplies, a, p.totalSupplyIndex) == Claims(m.supplies, a, p.totalSupplyIndex);
    assert Claims(m'.debts, a, p.totalDebtIndex) == Claims(m.debts, a, p.totalDebtIndex);
  }

  lemma EffectElsewhere(m: Market, m': Market, now: nat, a: AssetId, user: AccountId, get: AssetId, supplied: int, pay: AssetId, owed: int)
    requires Effect(m, m', now, user, get, supplied, pay, owed) && a != get && a != pay
    requires a in m.pools && a in m'.pools && m'.pools[a] == m.pools[a]
    ensures SameFor(m, m', a)
  {
    ExposureChange(m.supplies, m'.supplies, get, user, a);
    ExposureChange(m.debts, m'.debts, pay, user, a);
  }

  lemma SupplyElsewhere(m: Market, now: nat, user: AccountId, asset: AssetId, amount: nat, a: AssetId)
    requires Inv(m, now) && a in m.pools && a != asset
    ensures SameFor(m, Supply(m, now, user, asset, amount).0, a)
  {
    hide *;
    var (m', out) := Supply(m, now, user, asset, amount);
    SupplyEffect(m, now, user, asset, amount);
    SupplyPoolElsewhere(m, now, user, asset, amount, a);
    EffectElsewhere(m, m', now, a, user, asset, Added(out, amount), asset, 0);
  }

  lemma SupplyPoolElsewhere(m: Market, now: nat, user: AccountId, asset: AssetId, amount: nat, a: AssetId)
    requires a in m.pools && a != asset
    ensures var m' := Supply(m, now, user, asset, amount).0;
            a in m'.pools && m'.pools[a] == m.pools[a]
  {
    if asset in m.pools {
      SupplyCommits(m, Accrue(m.pools[asset], now), user, asset, amount);
    }
  }

  lemma WithdrawElsewhere(m: Market, now: nat, user: AccountId, asset: AssetId, amount: nat, a: AssetId)
    requires Inv(m, now) && a in m.pools && a != asset
    ensures SameFor(m, Withdraw(m, now, user, asset, amount).0, a)
  {
    hide *;
    var (m', out) := Withdraw(m, now, user, asset, amount);
    WithdrawEffect(m, now, user, asset, amount);
    WithdrawPoolElsewhere(m, now, user, asset, amount, a);
    EffectElsewhere(m, m', now, a, user, asset, Taken(out, Min(amount, SupplyOwed(m, now, asset, user))), asset, 0);
  }

  lemma WithdrawPoolElsewhere(m: Market, now: nat, user: AccountId, asset: AssetId, amount: nat, a: AssetId)
    requires a in m.pools && a != asset
    ensures var m' := Withdraw(m, now, user, asset, amount).0;
            a in m'.pools && m'.pools[a] == m.pools[a]
  {
    if asset in m.pools {
      var _ := WithdrawTotals(m, Accrue(m.pools[asset], now), ScaleOf(m, now), user, asset, amount);
    }
  }

  lemma BorrowElsewhere(m: Market, now: nat, user: AccountId, asset: AssetId, amount: nat, a: AssetId)
    requires Inv(m, now) && a in m.pools && a != asset
    ensures SameFor(m, Borrow(m, now, user, asset, amount).0, a)
  {
    hide *;
    var (m', out) := Borrow(m, now, user, asset, amount);
    BorrowEffect(m, now, user, asset, amount);
    BorrowPoolElsewhere(m, now, user, asset, amount, a);
    EffectElsewhere(m, m', now, a, user, asset, 0, asset, Added(out, amount));
  }

  lemma BorrowPoolElsewhere(m: Market, now: nat, user: AccountId, asset: AssetId, amount: nat, a: AssetId)
    requires a in m.pools && a != asset
    ensures var m' := Borrow(m, now, user, asset, amount).0;
            a in m'.pools && m'.pools[a] == m.pools[a]
  {
    if asset in m.pools {
      BorrowTotals(m, Accrue(m.pools[asset], now), ScaleOf(m, now), user, asset, amount);
    }
  }

  lemma RepayElsewhere(m: Market, now: nat, user: AccountId, asset: AssetId, amount: nat, a: AssetId)
    requires Inv(m, now) && a in m.pools && a != asset && Repay(m, now, user, asset, amount).1 != Panicked
    ensures SameFor(m, Repay(m, now, user, asset, amount).0, a)
  {
    hide *;
    var (m', out) := Repay(m, now, user, asset, amount);
    RepayEffect(m, now, user, asset, amount);
    RepayPoolElsewhere(m, now, user, asset, amount, a);
    EffectElsewhere(m, m', now, a, user, asset, 0, asset, Taken(out, Min(amount, DebtOwed(m, now, asset, user))));
  }

  lemma RepayPoolElsewhere(m: Market, now: nat, user: AccountId, asset: AssetId, amount: nat, a: AssetId)
    requires a in m.pools && a != asset
    ensures var m' := Repay(m, now, user, asset, amount).0;
            a in m'.pools && m'.pools[a] == m.pools[a]
  {
    if asset in m.pools {
      var _ := RepayTotals(m, Accrue(m.pools[asset], now), user, asset, amount);
    }
  }

  lemma LiquidateElsewhere(m: Market, now: nat, user: AccountId, target: AccountId, pay: AssetId, get: AssetId, amount: nat, a: AssetId)
    requires Inv(m, now) && a in m.pools && a != pay && a != get
    ensures SameFor(m, Liquidate(m, now, user, target, pay, get, amount).0, a)
  {
    hide *;
    var (m', out) := Liquidate(m, now, user, target, pay, get, amount);
    LiquidateEffect(m, now, user, target, pay, get, amount);
    LiquidatePoolElsewhere(m, now, user, target, pay, get, amount, a);
    if out == Done {
      EffectElsewhere(m, m', now, a, target, get, Taken(Done, SeizureOf(m, now, target, pay, get, amount)),
                      pay, Taken(Done, PaymentOf(m, now, target, pay, get, amount)));
    } else {
      EffectElsewhere(m, m', now, a, target, get, 0, pay, 0);
    }
  }

  lemma LiquidatePoolElsewhere(m: Market, now: nat, user: AccountId, target: AccountId, pay: AssetId, get: AssetId, amount: nat, a: AssetId)
    requires a in m.pools && a != pay && a != get
    ensures var m' := Liquidate(m, now, user, target, pay, get, amount).0;
            a in m'.pools && m'.pools[a] == m.pools[a]
  {
    if pay in m.pools && get in m.pools {
      LiquidateTotals(m, Accrue(m.pools[pay], now), Accrue(m.pools[get], now), ScaleOf(m, now), user, target, pay, get, amount);
    }
  }
}
