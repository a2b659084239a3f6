/**
 * Conservation bounds every balance by one bigint, the settlement row, so that the operations of the
 * ledger cannot fail on a CHECK, on overflow of available or held, or on a unique index. A row's version,
 * which counts its updates, is taken to stay below 2^63.
 */
module NoStuck {
  import opened Int64
  import opened Schema
  import opened Sums
  import opened Effects
  import opened Invariants
  import opened Deltas

  lemma SharesNonNegative(db: Db, c: Currency)
    requires Ranges(db)
    ensures forall a :: a in Shares(db.accounts, db.balances, c) ==> 0 <= Shares(db.accounts, db.balances, c)[a]
  {
  }

  /** What is owed to one account fits the settlement row, and hence bigint. */
  lemma OwedFits(db: Db, a: Uuid)
    requires Tables(db) && Ranges(db) && Chart(db) && Conserved(db)
    requires a in db.accounts && !IsSettlement(a)
    ensures Settlement(db.accounts[a].currency) in db.balances
    ensures db.balances[a].available + db.balances[a].held
         <= db.balances[Settlement(db.accounts[a].currency)].available <= MAX
  {
    var c := db.accounts[a].currency;
    assert ChartEntry(a, db.accounts[a]) && ConservedIn(db, c);
    SharesNonNegative(db, c);
    TotalAtLeastOne(Shares(db.accounts, db.balances, c), a);
  }

  /** So does what is owed to two accounts of the same currency together. */
  lemma OwedFitsTogether(db: Db, a: Uuid, b: Uuid)
    requires Tables(db) && Ranges(db) && Chart(db) && Conserved(db)
    requires a in db.accounts && !IsSettlement(a) && b in db.accounts && !IsSettlement(b) && a != b
    requires db.accounts[a].currency == db.accounts[b].currency
    ensures db.balances[a].available + db.balances[a].held + db.balances[b].available + db.balances[b].held <= MAX
  {
    var c := db.accounts[a].currency;
    assert ChartEntry(a, db.accounts[a]) && ChartEntry(b, db.accounts[b]) && ConservedIn(db, c);
    SharesNonNegative(db, c);
    TotalAtLeastTwo(Shares(db.accounts, db.balances, c), a, b);
  }

  /** An active hold is covered by its account's held balance. */
  lemma HeldCovers(db: Db, h: Uuid)
    requires Tables(db) && HoldsSound(db) && Books(db)
    requires h in db.holds && db.holds[h].status.Active?
    ensures db.holds[h].amount <= db.balances[db.holds[h].accountId].held
  {
    var a := db.holds[h].accountId;
    assert HoldSound(db, db.holds[h]) && Agrees(db, a);
    forall i | i in OpenAmounts(db.holds, a) ensures 0 <= OpenAmounts(db.holds, a)[i] {
      assert HoldSound(db, db.holds[i]);
    }
    TotalAtLeastOne(OpenAmounts(db.holds, a), h);
  }

  lemma ReleaseFits(db: Db, h: Uuid)
    requires Tables(db) && Ranges(db) && Chart(db) && HoldsSound(db) && Conserved(db) && Books(db)
    requires h in db.holds && db.holds[h].status.Active?
    ensures BumpFits(db.balances, db.holds[h].accountId, db.holds[h].amount, -db.holds[h].amount)
  {
    assert HoldSound(db, db.holds[h]);
    HeldCovers(db, h);
    OwedFits(db, db.holds[h].accountId);
  }

  /** Releasing a hold succeeds exactly when the hold is active. */
  lemma ReleaseNeverSticks(db: Db, h: Uuid, reason: string)
    requires Tables(db) && Ranges(db) && Chart(db) && HoldsSound(db) && Conserved(db) && Books(db)
    ensures ReleaseSpec(db, h, reason).Ok? <==> h in db.holds && db.holds[h].status.Active?
  {
    if h in db.holds && db.holds[h].status.Active? {
      ReleaseFits(db, h);
    }
  }

  /** The two balance updates of a capture, once the bounds on both rows are known. */
  lemma CaptureBumps(bs: map<Uuid, Balance>, a: Uuid, payable: Uuid, held: int, amount: int)
    requires a in bs && payable in bs && a != payable && 0 < amount <= held <= bs[a].held
    requires 0 <= bs[a].available && bs[a].available + bs[a].held <= MAX
    requires 0 <= bs[payable].available && 0 <= bs[payable].held <= MAX
    requires bs[a].available + bs[a].held + bs[payable].available + bs[payable].held <= MAX
    ensures BumpFits(bs, a, held - amount, -held)
    ensures BumpFits(Bump(bs, a, held - amount, -held), payable, amount, 0)
  {
  }

  lemma CaptureFits(db: Db, h: Uuid, amount: int)
    requires Tables(db) && Ranges(db) && Chart(db) && HoldsSound(db) && Conserved(db) && Books(db)
    requires h in db.holds && db.holds[h].status.Active? && 0 < amount <= db.holds[h].amount
    requires Supported(db.holds[h].currency)
    ensures Payable(db.holds[h].currency) in db.accounts
    ensures BumpFits(db.balances, db.holds[h].accountId, db.holds[h].amount - amount, -db.holds[h].amount)
    ensures BumpFits(Bump(db.balances, db.holds[h].accountId, db.holds[h].amount - amount, -db.holds[h].amount),
                     Payable(db.holds[h].currency), amount, 0)
  {
    var row := db.holds[h];
    var payable := Payable(row.currency);
    PayableKnown(db, row.currency);
    assert HoldSound(db, row);
    HeldCovers(db, h);
    OwedFits(db, row.accountId);
    OwedFitsTogether(db, row.accountId, payable);
    CaptureBumps(db.balances, row.accountId, payable, row.amount, amount);
  }

  lemma PayableKnown(db: Db, c: Currency)
    requires Chart(db) && Supported(c)
    ensures IsPayable(Payable(c)) && Payable(c) in db.accounts && db.accounts[Payable(c)].currency == c
  {
    assert IsSystem(Payable(c));
    assert ChartEntry(Payable(c), db.accounts[Payable(c)]);
  }

  lemma HoldCurrencySupported(db: Db, h: Uuid)
    requires Chart(db) && HoldsSound(db) && h in db.holds
    ensures Supported(db.holds[h].currency)
  {
    assert HoldSound(db, db.holds[h]);
    assert ChartEntry(db.holds[h].accountId, db.accounts[db.holds[h].accountId]);
  }

  lemma OnlyCapturedHaveKeys(db: Db, h: Uuid)
    requires Lifecycle(db) && KeyUsed(db.transactions, CaptureOf(h))
    ensures h in db.holds && db.holds[h].status.Captured?
  {
    var t :| t in db.transactions && db.transactions[t].key == Some(CaptureOf(h));
    assert CapturedBy(db, h, t);
  }

  lemma CaptureStores(db: Db, h: Uuid, amount: int, t: Uuid)
    requires Tables(db) && Ranges(db) && Chart(db) && HoldsSound(db) && Conserved(db) && Books(db)
    requires h in db.holds && db.holds[h].status.Active? && 0 < amount <= db.holds[h].amount
    requires t !in db.transactions && !KeyUsed(db.transactions, CaptureOf(h))
    ensures Supported(db.holds[h].currency) && CaptureStorable(db, h, amount, t)
  {
    HoldCurrencySupported(db, h);
    CaptureFits(db, h, amount);
  }

  /** Capturing succeeds exactly when the hold is active and the amount is positive and within it. */
  lemma CaptureNeverSticks(db: Db, h: Uuid, amount: int, t: Uuid)
    requires Tables(db) && Ranges(db) && Chart(db) && HoldsSound(db) && Conserved(db) && Books(db) && Lifecycle(db)
    requires t !in db.transactions
    ensures CaptureSpec(db, h, amount, t).Ok?
      <==> h in db.holds && db.holds[h].status.Active? && 0 < amount <= db.holds[h].amount
  {
    if h in db.holds && db.holds[h].status.Active? && 0 < amount <= db.holds[h].amount {
      if KeyUsed(db.transactions, CaptureOf(h)) {
        OnlyCapturedHaveKeys(db, h);
      }
      CaptureStores(db, h, amount, t);
    }
  }

  /** Nothing is reserved on a system account. */
  lemma SystemHoldsNothing(db: Db, a: Uuid)
    requires Chart(db) && HoldsSound(db) && Books(db) && IsSystem(a)
    ensures a in db.balances && db.balances[a].held == 0
  {
    forall h | h in db.holds ensures db.holds[h].accountId != a {
      assert HoldSound(db, db.holds[h]);
    }
    NothingActive(db.holds, a);
    assert Agrees(db, a);
  }

  lemma HoldFits(db: Db, a: Uuid, amount: int)
    requires Tables(db) && Ranges(db) && Chart(db) && HoldsSound(db) && Conserved(db) && Books(db)
    requires a in db.accounts && 0 < amount <= db.balances[a].available
    ensures BumpFits(db.balances, a, -amount, amount)
  {
    if IsSettlement(a) {
      SystemHoldsNothing(db, a);
    } else {
      OwedFits(db, a);
    }
  }

  /** Holding succeeds exactly under the business conditions, whatever the account. */
  lemma HoldNeverSticks(db: Db, holdId: Uuid, a: Uuid, p: Uuid, amount: int, c: Currency, x: int)
    requires Tables(db) && Ranges(db) && Chart(db) && HoldsSound(db) && Conserved(db) && Books(db)
    requires holdId !in db.holds
    ensures HoldSpec(db, holdId, a, p, amount, c, x).Ok?
      <==> a in db.accounts && db.accounts[a].currency == c && 0 < amount <= db.balances[a].available
           && !HasActive(db.holds, p)
  {
    if a in db.accounts && 0 < amount <= db.balances[a].available {
      HoldFits(db, a, amount);
    }
  }

  /** A deposit can only fail at the top of the settlement row's range: the account's own row is bounded by it. */
  lemma DepositSticksAtTheTop(db: Db, a: Uuid, amount: int, c: Currency, key: Key, t: Uuid)
    requires Tables(db) && Ranges(db) && Chart(db) && Conserved(db)
    requires a in db.accounts && !IsSettlement(a) && db.accounts[a].currency == c && 0 < amount
    requires t !in db.transactions && !KeyUsed(db.transactions, key)
    ensures Supported(c) && Settlement(c) in db.balances
    ensures DepositSpec(db, a, amount, c, key, t).Ok? <==> db.balances[Settlement(c)].available + amount <= MAX
  {
    assert ChartEntry(a, db.accounts[a]);
    OwedFits(db, a);
  }

  /** Every sum that Reconcile reads fits int64, and its subtraction cannot wrap. */
  lemma ReconcileSumsFit(db: Db, a: Uuid)
    requires Tables(db) && Ranges(db) && Chart(db) && Conserved(db) && Books(db) && CreditBounds(db) && a in db.accounts
    ensures 0 <= Debits(db.entries, a) <= MAX && 0 <= Credits(db.entries, a) <= MAX
    ensures 0 <= ActiveSum(db.holds, a) <= MAX
    ensures 0 <= Expected(db, a) <= MAX
  {
    assert Agrees(db, a) && CreditBound(db, a) && ChartEntry(a, db.accounts[a]);
    if !IsSettlement(a) {
      OwedFits(db, a);
    }
  }
}
