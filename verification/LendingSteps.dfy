// What one lending call does to the state, on every outcome: the invariant holds afterwards, and
// the views move by exactly the call's own amount, for that user and asset only.

module LendingSteps {
  import opened Identifiers
  import opened FixedPoint
  import opened AssetLedger
  import opened InterestModel
  import opened UserBooks
  import opened LendingMarket

  // ---------- the books ----------

  /** At one scale, only `user`'s supply of `get` and debt of `pay` moved, by these amounts. */
  ghost predicate Moved(m: Market, m': Market, sc: Scale, user: AccountId, get: AssetId, supplied: int, pay: AssetId, owed: int) {
    && BooksOk(m', sc)
    && SameElsewhere(m.supplies, m'.supplies, get, user)
    && SameElsewhere(m.debts, m'.debts, pay, user)
    && Owed(m'.supplies, sc.supply, get, user) == Owed(m.supplies, sc.supply, get, user) + supplied
    && Owed(m'.debts, sc.debt, pay, user) == Owed(m.debts, sc.debt, pay, user) + owed
  }

  lemma MovedThen(m: Market, m1: Market, m': Market, sc: Scale, user: AccountId, get: AssetId, supplied: int, pay: AssetId, owed: int)
    requires Moved(m, m1, sc, user, get, 0, pay, 0)
    requires Moved(m1, m', sc, user, get, supplied, pay, owed)
    ensures Moved(m, m', sc, user, get, supplied, pay, owed)
  {
  }

  lemma SameBooks(m: Market, m': Market, sc: Scale, user: AccountId, get: AssetId, pay: AssetId)
    requires BooksOk(m, sc) && m'.supplies == m.supplies && m'.debts == m.debts
    ensures Moved(m, m', sc, user, get, 0, pay, 0)
  {
  }

  lemma SupplyBookMoved(m: Market, m': Market, sc: Scale, user: AccountId, get: AssetId, supplied: int, pay: AssetId)
    requires BooksOk(m, sc) && BookOk(m'.supplies, sc.supply) && m'.debts == m.debts
    requires SameElsewhere(m.supplies, m'.supplies, get, user)
    requires Owed(m'.supplies, sc.supply, get, user) == Owed(m.supplies, sc.supply, get, user) + supplied
    ensures Moved(m, m', sc, user, get, supplied, pay, 0)
  {
  }

  lemma DebtBookMoved(m: Market, m': Market, sc: Scale, user: AccountId, pay: AssetId, owed: int, get: AssetId)
    requires BooksOk(m, sc) && BookOk(m'.debts, sc.debt) && m'.supplies == m.supplies
    requires SameElsewhere(m.debts, m'.debts, pay, user)
    requires Owed(m'.debts, sc.debt, pay, user) == Owed(m.debts, sc.debt, pay, user) + owed
    ensures Moved(m, m', sc, user, get, 0, pay, owed)
  {
  }

  /** The pool a call works on, accrued but not yet committed: its indices are the limits. */
  ghost predicate Current(sc: Scale, asset: AssetId, pool: Pool) {
    && asset in sc.supply && asset in sc.debt
    && pool.totalSupplyIndex == sc.supply[asset] && D <= sc.supply[asset]
    && pool.totalDebtIndex == sc.debt[asset] && D <= sc.debt[asset]
  }

  // Catching up a user on a stale pool is invisible.

  lemma AccrueSupplierMoves(m: Market, sc: Scale, pool: Pool, user: AccountId, asset: AssetId, pay: AssetId)
    requires BooksOk(m, sc) && Current(sc, asset, pool)
    ensures var m1 := AccrueSupplier(m, pool, user, asset);
            && Moved(m, m1, sc, user, asset, 0, pay, 0)
            && ((asset, user) in m1.supplies.records <==> (asset, user) in m.supplies.records)
            && ((asset, user) in m1.supplies.records ==> m1.supplies.records[(asset, user)].amount == Owed(m.supplies, sc.supply, asset, user))
  {
    AccrueUserKeeps(m.supplies, sc.supply, asset, user);
  }

  lemma AccrueBorrowerMoves(m: Market, sc: Scale, pool: Pool, user: AccountId, asset: AssetId, get: AssetId)
    requires BooksOk(m, sc) && Current(sc, asset, pool)
    ensures var m1 := AccrueBorrower(m, pool, user, asset);
            && Moved(m, m1, sc, user, get, 0, asset, 0)
            && ((asset, user) in m1.debts.records <==> (asset, user) in m.debts.records)
            && ((asset, user) in m1.debts.records ==> m1.debts.records[(asset, user)].amount == Owed(m.debts, sc.debt, asset, user))
  {
    AccrueUserKeeps(m.debts, sc.debt, asset, user);
  }

  lemma AccrueTargetMoves(m: Market, sc: Scale, payPool: Pool, getPool: Pool, user: AccountId, pay: AssetId, get: AssetId)
    requires BooksOk(m, sc) && Current(sc, get, getPool) && Current(sc, pay, payPool)
    ensures var m1 := AccrueTarget(m, payPool, getPool, user, pay, get);
            && Moved(m, m1, sc, user, get, 0, pay, 0)
            && ((get, user) in m1.supplies.records <==> (get, user) in m.supplies.records)
            && ((pay, user) in m1.debts.records <==> (pay, user) in m.debts.records)
            && ((get, user) in m1.supplies.records ==> m1.supplies.records[(get, user)].amount == Owed(m.supplies, sc.supply, get, user))
            && ((pay, user) in m1.debts.records ==> m1.debts.records[(pay, user)].amount == Owed(m.debts, sc.debt, pay, user))
  {
    var mid := AccrueSupplier(m, getPool, user, get);
    AccrueSupplierMoves(m, sc, getPool, user, get, pay);
    AccrueBorrowerMoves(mid, sc, payPool, user, pay, get);
    MovedThen(m, mid, AccrueTarget(m, payPool, getPool, user, pay, get), sc, user, get, 0, pay, 0);
  }

  // The writing half of each call.

  function Added(out: Outcome, n: nat): int {
    if out == Done then n else 0
  }

  function Taken(out: Outcome, n: nat): int {
    if out == Done then -(n as int) else 0
  }

  lemma SupplyMoves(m: Market, sc: Scale, pool: Pool, user: AccountId, asset: AssetId, amount: nat)
    requires BooksOk(m, sc) && Current(sc, asset, pool)
    ensures var (m', out) := TakeIn(m, pool, user, asset, amount);
            && out != Panicked
            && Moved(m, m', sc, user, asset, Added(out, amount), asset, 0)
  {
    var (m', out) := TakeIn(m, pool, user, asset, amount);
    if out == Done {
      CreditKeeps(m.supplies, sc.supply, asset, user, amount);
      SupplyBookMoved(m, m', sc, user, asset, amount, asset);
    } else {
      SameBooks(m, m, sc, user, asset, asset);
    }
  }

  lemma PayOutMoves(m: Market, sc: Scale, pool: Pool, user: AccountId, asset: AssetId, paid: nat)
    requires BooksOk(m, sc) && Current(sc, asset, pool)
    requires (asset, user) in m.supplies.records && paid <= Owed(m.supplies, sc.supply, asset, user)
    requires paid <= pool.supply
    ensures var (m', out) := PayOut(m, pool, user, asset, paid);
            && out != Panicked
            && Moved(m, m', sc, user, asset, Taken(out, paid), asset, 0)
  {
    DebitKeeps(m.supplies, sc.supply, asset, user, paid);
  }

  lemma LendMoves(m: Market, sc: Scale, pool: Pool, user: AccountId, asset: AssetId, amount: nat)
    requires BooksOk(m, sc) && Current(sc, asset, pool)
    ensures var (m', out) := Lend(m, pool, user, asset, amount);
            && out != Panicked
            && Moved(m, m', sc, user, asset, 0, asset, Added(out, amount))
  {
    var (m', out) := Lend(m, pool, user, asset, amount);
    if out == Done {
      CreditKeeps(m.debts, sc.debt, asset, user, amount);
      DebtBookMoved(m, m', sc, user, asset, amount, asset);
    } else {
      SameBooks(m, m, sc, user, asset, asset);
    }
  }

  lemma TakeBackMoves(m: Market, sc: Scale, pool: Pool, user: AccountId, asset: AssetId, paid: nat)
    requires BooksOk(m, sc) && Current(sc, asset, pool)
    requires (asset, user) in m.debts.records && paid <= Owed(m.debts, sc.debt, asset, user)
    ensures var (m', out) := TakeBack(m, pool, user, asset, paid);
            && (out == Panicked <==> 0 < paid <= Balance(m.ledger, asset, user) && pool.debt < paid)
            && (out != Panicked ==> Moved(m, m', sc, user, asset, 0, asset, Taken(out, paid)))
  {
    DebitKeeps(m.debts, sc.debt, asset, user, paid);
  }

  lemma SettleMoves(m: Market, sc: Scale, payPool: Pool, getPool: Pool, target: AccountId, pay: AssetId, get: AssetId, paid: nat, seized: nat)
    requires BooksOk(m, sc) && Current(sc, get, getPool) && Current(sc, pay, payPool)
    requires (get, target) in m.supplies.records && (pay, target) in m.debts.records
    requires paid <= Owed(m.debts, sc.debt, pay, target) && seized <= Owed(m.supplies, sc.supply, get, target)
    ensures var (m', out) := Settle(m, payPool, getPool, target, pay, get, paid, seized);
            && out == Done
            && Moved(m, m', sc, target, get, Taken(Done, seized), pay, Taken(Done, paid))
  {
    DebitKeeps(m.supplies, sc.supply, get, target, seized);
    DebitKeeps(m.debts, sc.debt, pay, target, paid);
  }

  /** Under all the floors, what is seized is worth no more units than the close-factor limit. */
  lemma SeizedWithinLimit(getPrice: nat, payPrice: nat, discount: nat, getLimit: nat, paid: nat)
    requires getPrice > 0 && payPrice > 0 && discount > 0
    requires paid <= PayLimit(getPrice, payPrice, discount, getLimit)
    ensures GetAmount(getPrice, payPrice, discount, paid) <= getLimit
  {
    var r1 := Div(getPrice, payPrice);
    var q1 := Mul(r1, discount);
    var r2 := Div(payPrice, getPrice);
    var q2 := Div(r2, discount);
    FloorBounds(getPrice * D, payPrice);
    FloorBounds(r1 * discount, D);
    FloorBounds(q1 * getLimit, D);
    FloorBounds(payPrice * D, getPrice);
    FloorBounds(r2 * D, discount);
    // r1 * r2 <= D * D
    assert r1 * r2 <= D * D by {
      MulLe(r1 * payPrice, getPrice * D, r2);
      MulLe(r2 * getPrice, payPrice * D, D);
      Reorder(r1, payPrice, r2);
      assert getPrice * D * r2 == r2 * getPrice * D by { Reorder(getPrice, D, r2); }
      assert payPrice * D * D == D * D * payPrice;
      CancelLe(r1 * r2, D * D, payPrice);
    }
    // q1 * q2 <= D * D
    assert q1 * q2 <= D * D by {
      MulLe(q1 * D, r1 * discount, q2);
      MulLe(q2 * discount, r2 * D, r1);
      assert r1 * discount * q2 == q2 * discount * r1 by { Reorder(r1, discount, q2); Reorder(q2, discount, r1); }
      assert r2 * D * r1 == r1 * r2 * D by { Reorder(r2, D, r1); }
      Reorder(q1, D, q2);
      CancelLe(q1 * q2, r1 * r2, D);
    }
    // paid * D <= q1 * getLimit, so q2 * paid * D <= q2 * q1 * getLimit <= D * D * getLimit
    MulLe(paid * D, q1 * getLimit, q2);
    assert q1 * getLimit * q2 == q1 * q2 * getLimit by { Reorder(q1, getLimit, q2); }
    MulLe(q1 * q2, D * D, getLimit);
    assert paid * D * q2 == q2 * paid * D by { Reorder(paid, D, q2); }
    FloorLe(q2 * paid, D * getLimit, D);
    FloorAtMost(D * getLimit, D, getLimit);
  }

  /** A liquidation stays inside the target's two records: the payment within the accrued debt, the
      seizure within the close-factor share of the accrued supply. */
  lemma LiquidationWithinRecords(m: Market, getPool: Pool, target: AccountId, pay: AssetId, get: AssetId, amount: nat)
    requires Price(m.ledger, pay) > 0 && Price(m.ledger, get) > 0
    requires getPool.discountFactor > 0 && getPool.closeFactor <= D
    requires (get, target) in m.supplies.records && (pay, target) in m.debts.records
    ensures var paid := PaidAmount(m, getPool, target, pay, get, amount);
            var held := m.supplies.records[(get, target)].amount;
            && paid <= amount
            && paid <= m.debts.records[(pay, target)].amount
            && SeizedAmount(m, getPool, pay, get, paid) <= MulInt(getPool.closeFactor, held) <= held
  {
    var held := m.supplies.records[(get, target)].amount;
    SeizedWithinLimit(Price(m.ledger, get), Price(m.ledger, pay), getPool.discountFactor,
                      MulInt(getPool.closeFactor, held), PaidAmount(m, getPool, target, pay, get, amount));
    MulLe(getPool.closeFactor, D, held);
    FloorLe(getPool.closeFactor * held, D * held, D);
    MulOne(held);
  }

  lemma SeizeMoves(m: Market, sc: Scale, payPool: Pool, getPool: Pool, user: AccountId, target: AccountId, pay: AssetId, get: AssetId, paid: nat)
    requires BooksOk(m, sc) && Current(sc, get, getPool) && Current(sc, pay, payPool)
    requires Price(m.ledger, get) > 0 && getPool.discountFactor > 0
    requires (get, target) in m.supplies.records && (pay, target) in m.debts.records
    requires paid <= Owed(m.debts, sc.debt, pay, target)
    requires SeizedAmount(m, getPool, pay, get, paid) <= Owed(m.supplies, sc.supply, get, target)
    ensures var (m', out) := Seize(m, payPool, getPool, user, target, pay, get, paid);
            && out != Panicked
            && Moved(m, m', sc, target, get, Taken(out, SeizedAmount(m, getPool, pay, get, paid)), pay, Taken(out, paid))
  {
    var seized := SeizedAmount(m, getPool, pay, get, paid);
    var m1 := m.(ledger := Transfer(m.ledger, user, pay, LendingPallet, paid).0);
    var m2 := m1.(ledger := Transfer(m1.ledger, LendingPallet, get, user, seized).0);
    SameBooks(m, m, sc, target, get, pay);
    SameBooks(m, m1, sc, target, get, pay);
    SameBooks(m, m2, sc, target, get, pay);
    SettleMoves(m2, sc, payPool, getPool, target, pay, get, paid, seized);
  }

  // ---------- each call, on every outcome ----------

  lemma WithdrawMoves(m: Market, pool: Pool, sc: Scale, user: AccountId, asset: AssetId, amount: nat)
    requires BooksOk(m, sc) && Current(sc, asset, pool)
    ensures var (m', out) := WithdrawPool(m, pool, sc, user, asset, amount);
            Moved(m, m', sc, user, asset, Taken(out, Min(amount, Owed(m.supplies, sc.supply, asset, user))), asset, 0)
  {
    var m1 := AccrueSupplier(m, pool, user, asset);
    AccrueSupplierMoves(m, sc, pool, user, asset, asset);
    if (asset, user) in m1.supplies.records {
      var paid := Min(amount, Owed(m.supplies, sc.supply, asset, user));
      if paid <= pool.supply {
        PayOutMoves(m1, sc, pool, user, asset, paid);
        var (m', out) := PayOut(m1, pool, user, asset, paid);
        MovedThen(m, m1, m', sc, user, asset, Taken(out, paid), asset, 0);
      }
    }
  }

  lemma BorrowMoves(m: Market, pool: Pool, sc: Scale, user: AccountId, asset: AssetId, amount: nat)
    requires BooksOk(m, sc) && Current(sc, asset, pool)
    ensures var (m', out) := BorrowPool(m, pool, sc, user, asset, amount);
            Moved(m, m', sc, user, asset, 0, asset, Added(out, amount))
  {
    hide Moved, BooksOk, Current, BorrowCheck, Lend, AccrueBorrower;
    SameBooks(m, m, sc, user, asset, asset);
    var m1 := AccrueBorrower(m, pool, user, asset);
    AccrueBorrowerMoves(m, sc, pool, user, asset, asset);
    if BorrowCheck(m1, sc, user, asset, amount) == Done {
      LendMoves(m1, sc, pool, user, asset, amount);
      var (m', out) := Lend(m1, pool, user, asset, amount);
      MovedThen(m, m1, m', sc, user, asset, 0, asset, Added(out, amount));
    }
  }

  /** A repayment moves the debt view by what it pays, unless the pool's recorded debt is smaller
      than that payment; only then does it trap. */
  lemma RepayMoves(m: Market, pool: Pool, sc: Scale, user: AccountId, asset: AssetId, amount: nat)
    requires BooksOk(m, sc) && Current(sc, asset, pool)
    ensures var (m', out) := RepayPool(m, pool, user, asset, amount);
            var paid := Min(amount, Owed(m.debts, sc.debt, asset, user));
            && (out == Panicked <==> 0 < paid <= Balance(m.ledger, asset, user) && pool.debt < paid)
            && (out != Panicked ==> Moved(m, m', sc, user, asset, 0, asset, Taken(out, paid)))
  {
    var m1 := AccrueBorrower(m, pool, user, asset);
    AccrueBorrowerMoves(m, sc, pool, user, asset, asset);
    if (asset, user) in m1.debts.records {
      var paid := Min(amount, Owed(m.debts, sc.debt, asset, user));
      TakeBackMoves(m1, sc, pool, user, asset, paid);
      var (m', out) := TakeBack(m1, pool, user, asset, paid);
      if out != Panicked {
        MovedThen(m, m1, m', sc, user, asset, 0, asset, Taken(out, paid));
      }
    }
  }

  /** The payment of a liquidation, from the state before it. */
  function Payment(m: Market, payPool: Pool, getPool: Pool, target: AccountId, pay: AssetId, get: AssetId, amount: nat): nat
    requires Price(m.ledger, pay) > 0
    requires (get, target) in m.supplies.records && (pay, target) in m.debts.records
  {
    PaidAmount(AccrueTarget(m, payPool, getPool, target, pay, get), getPool, target, pay, get, amount)
  }

  /** What a liquidation needs in order to price its amounts. */
  predicate Seizable(m: Market, getPool: Pool, target: AccountId, pay: AssetId, get: AssetId) {
    && Price(m.ledger, get) > 0 && Price(m.ledger, pay) > 0 && getPool.discountFactor > 0
    && (get, target) in m.supplies.records && (pay, target) in m.debts.records
  }

  function Seizure(m: Market, payPool: Pool, getPool: Pool, target: AccountId, pay: AssetId, get: AssetId, amount: nat): nat
    requires Seizable(m, getPool, target, pay, get)
  {
    SeizedAmount(m, getPool, pay, get, Payment(m, payPool, getPool, target, pay, get, amount))
  }

  /** The limits hold for what a liquidation actually takes. */
  lemma LiquidationLimits(m: Market, payPool: Pool, getPool: Pool, sc: Scale, target: AccountId, pay: AssetId, get: AssetId, amount: nat)
    requires BooksOk(m, sc) && Current(sc, pay, payPool) && Current(sc, get, getPool)
    requires Seizable(m, getPool, target, pay, get) && getPool.closeFactor <= D
    ensures Payment(m, payPool, getPool, target, pay, get, amount) <= Min(amount, Owed(m.debts, sc.debt, pay, target))
    ensures Seizure(m, payPool, getPool, target, pay, get, amount)
            <= MulInt(getPool.closeFactor, Owed(m.supplies, sc.supply, get, target))
            <= Owed(m.supplies, sc.supply, get, target)
  {
    AccrueTargetMoves(m, sc, payPool, getPool, target, pay, get);
    LiquidationWithinRecords(AccrueTarget(m, payPool, getPool, target, pay, get), getPool, target, pay, get, amount);
  }

  /** A liquidation moves the target's two views by the seizure and the payment. Given the listed
      pools exist, it traps only on a zero price, never on the target's records. */
  lemma LiquidateMoves(m: Market, payPool: Pool, getPool: Pool, sc: Scale, user: AccountId, target: AccountId, pay: AssetId, get: AssetId, amount: nat)
    requires BooksOk(m, sc) && Current(sc, pay, payPool) && Current(sc, get, getPool)
    requires getPool.closeFactor <= D && getPool.discountFactor > 0
    ensures var (m', out) := LiquidatePools(m, payPool, getPool, sc, user, target, pay, get, amount);
            && (out == Done ==> Seizable(m, getPool, target, pay, get)
                                && Moved(m, m', sc, target, get, Taken(Done, Seizure(m, payPool, getPool, target, pay, get, amount)),
                                         pay, Taken(Done, Payment(m, payPool, getPool, target, pay, get, amount))))
            && (out != Done ==> Moved(m, m', sc, target, get, 0, pay, 0))
            && (out == Panicked && UserInfoDefined(m, target) ==> Price(m.ledger, pay) == 0 || Price(m.ledger, get) == 0)
  {
    hide Moved, BooksOk, Current, LiquidateCheck, Seize;
    var m1 := AccrueTarget(m, payPool, getPool, target, pay, get);
    AccrueTargetMoves(m, sc, payPool, getPool, target, pay, get);
    var check := LiquidateCheck(m1, getPool, sc, target, pay, get);
    LiquidateCheckIs(m1, getPool, sc, target, pay, get);
    if check == Done {
      LiquidationLimits(m, payPool, getPool, sc, target, pay, get, amount);
      var paid := Payment(m, payPool, getPool, target, pay, get, amount);
      SeizeMoves(m1, sc, payPool, getPool, user, target, pay, get, paid);
      var (m', out) := Seize(m1, payPool, getPool, user, target, pay, get, paid);
      MovedThen(m, m1, m', sc, target, get, Taken(out, SeizedAmount(m1, getPool, pay, get, paid)), pay, Taken(out, paid));
    }
  }

  lemma LiquidateCheckIs(m: Market, getPool: Pool, sc: Scale, target: AccountId, pay: AssetId, get: AssetId)
    ensures var check := LiquidateCheck(m, getPool, sc, target, pay, get);
            && (check == Done ==> (get, target) in m.supplies.records && (pay, target) in m.debts.records
                                  && Price(m.ledger, get) > 0 && Price(m.ledger, pay) > 0 && getPool.discountFactor > 0)
            && (check == Panicked && UserInfoDefined(m, target) && getPool.discountFactor > 0
                ==> Price(m.ledger, pay) == 0 || Price(m.ledger, get) == 0)
  {
  }
}
