/** Each atomic effect keeps every part of the invariant. */
module Preservation {
  import opened Schema
  import opened Effects
  import opened Invariants
  import opened Deltas
  import Validate

  // Hold

  /** A storable hold on a user account in that account's currency. */
  ghost predicate GoodHold(db: Db, holdId: Uuid, a: Uuid, p: Uuid, amount: int, c: Currency) {
    && a in db.accounts && !IsSystem(a) && db.accounts[a].currency == c
    && HoldStorable(db, holdId, a, p, amount)
  }

  lemma HoldKeepsTables(db: Db, holdId: Uuid, a: Uuid, p: Uuid, amount: int, c: Currency, x: int)
    requires Tables(db) && Ranges(db) && Chart(db) && HoldsSound(db) && OnePerPayment(db)
    requires GoodHold(db, holdId, a, p, amount, c)
    ensures var after := HoldEffect(db, holdId, a, p, amount, c, x);
      Tables(after) && Ranges(after) && Chart(after) && HoldsSound(after) && OnePerPayment(after)
  {
  }

  lemma HoldKeepsConserved(db: Db, holdId: Uuid, a: Uuid, p: Uuid, amount: int, c: Currency, x: int)
    requires Tables(db) && Conserved(db) && GoodHold(db, holdId, a, p, amount, c)
    ensures Conserved(HoldEffect(db, holdId, a, p, amount, c, x))
  {
    var after := HoldEffect(db, holdId, a, p, amount, c, x);
    forall d ensures ConservedIn(after, d) {
      assert ConservedIn(db, d);
      LiabilitiesBump(db.accounts, db.balances, a, -amount, amount, d);
    }
  }

  lemma HoldKeepsAgreement(db: Db, holdId: Uuid, a: Uuid, p: Uuid, amount: int, c: Currency, x: int, i: Uuid)
    requires GoodHold(db, holdId, a, p, amount, c) && i in db.accounts
    requires ChartEntry(a, db.accounts[a]) && Agrees(db, i)
    ensures Agrees(HoldEffect(db, holdId, a, p, amount, c, x), i)
  {
    ActivePut(db.holds, holdId, Hold(a, p, amount, c, Active, x), i);
  }

  lemma HoldKeepsBooks(db: Db, holdId: Uuid, a: Uuid, p: Uuid, amount: int, c: Currency, x: int)
    requires Chart(db) && Books(db) && GoodHold(db, holdId, a, p, amount, c)
    ensures Books(HoldEffect(db, holdId, a, p, amount, c, x))
  {
    var after := HoldEffect(db, holdId, a, p, amount, c, x);
    forall i | i in after.accounts ensures Agrees(after, i) {
      HoldKeepsAgreement(db, holdId, a, p, amount, c, x, i);
    }
  }

  lemma HoldKeepsCreditBounds(db: Db, holdId: Uuid, a: Uuid, p: Uuid, amount: int, c: Currency, x: int)
    requires CreditBounds(db) && GoodHold(db, holdId, a, p, amount, c)
    ensures CreditBounds(HoldEffect(db, holdId, a, p, amount, c, x))
  {
    var after := HoldEffect(db, holdId, a, p, amount, c, x);
    forall i | i in after.accounts ensures CreditBound(after, i) {
      assert CreditBound(db, i);
    }
  }

  lemma HoldKeepsEvents(db: Db, holdId: Uuid, a: Uuid, p: Uuid, amount: int, c: Currency, x: int)
    requires Tables(db) && ReservesRebuild(db) && PayablesRebuild(db) && HoldEvents(db)
    requires GoodHold(db, holdId, a, p, amount, c)
    ensures var after := HoldEffect(db, holdId, a, p, amount, c, x);
      ReservesRebuild(after) && PayablesRebuild(after) && HoldEvents(after)
  {
    var after := HoldEffect(db, holdId, a, p, amount, c, x);
    EventAppended(db.outbox, Event(holdId, a, amount, c, FundsHeld(p, x)));
    forall h ensures EventsOfHold(after, h) {
      assert EventsOfHold(db, h);
    }
  }

  lemma HoldKeepsLedger(db: Db, holdId: Uuid, a: Uuid, p: Uuid, amount: int, c: Currency, x: int)
    requires KeysUnique(db) && Lifecycle(db) && EntriesSound(db) && PostingsBalance(db) && TrialBalance(db)
    requires GoodHold(db, holdId, a, p, amount, c)
    ensures var after := HoldEffect(db, holdId, a, p, amount, c, x);
      KeysUnique(after) && Lifecycle(after) && EntriesSound(after) && PostingsBalance(after) && TrialBalance(after)
  {
    var after := HoldEffect(db, holdId, a, p, amount, c, x);
    forall t, h | t in after.transactions && after.transactions[t].key == Some(CaptureOf(h))
      ensures CapturedBy(after, h, t)
    {
      assert CapturedBy(db, h, t);
    }
    forall e | e in after.entries ensures EntrySound(after, e) {
      assert EntrySound(db, e);
    }
  }

  lemma HoldKeepsInv(db: Db, holdId: Uuid, a: Uuid, p: Uuid, amount: int, c: Currency, x: int)
    requires Inv(db) && GoodHold(db, holdId, a, p, amount, c)
    ensures Inv(HoldEffect(db, holdId, a, p, amount, c, x))
  {
    HoldKeepsTables(db, holdId, a, p, amount, c, x);
    HoldKeepsConserved(db, holdId, a, p, amount, c, x);
    HoldKeepsBooks(db, holdId, a, p, amount, c, x);
    HoldKeepsCreditBounds(db, holdId, a, p, amount, c, x);
    HoldKeepsEvents(db, holdId, a, p, amount, c, x);
    HoldKeepsLedger(db, holdId, a, p, amount, c, x);
  }

  // Release

  ghost predicate GoodRelease(db: Db, h: Uuid) {
    && h in db.holds && db.holds[h].status.Active?
    && BumpFits(db.balances, db.holds[h].accountId, db.holds[h].amount, -db.holds[h].amount)
  }

  lemma ReleaseKeepsTables(db: Db, h: Uuid, reason: string)
    requires Tables(db) && Ranges(db) && Chart(db) && HoldsSound(db) && OnePerPayment(db) && GoodRelease(db, h)
    ensures var after := ReleaseEffect(db, h, reason);
      Tables(after) && Ranges(after) && Chart(after) && HoldsSound(after) && OnePerPayment(after)
  {
    assert HoldSound(db, db.holds[h]);
  }

  lemma ReleaseKeepsConserved(db: Db, h: Uuid, reason: string)
    requires Tables(db) && Conserved(db) && GoodRelease(db, h) && HoldSound(db, db.holds[h])
    ensures Conserved(ReleaseEffect(db, h, reason))
  {
    var after := ReleaseEffect(db, h, reason);
    forall d ensures ConservedIn(after, d) {
      assert ConservedIn(db, d);
      LiabilitiesBump(db.accounts, db.balances, db.holds[h].accountId, db.holds[h].amount, -db.holds[h].amount, d);
    }
  }

  lemma ReleaseKeepsAgreement(db: Db, h: Uuid, reason: string, i: Uuid)
    requires GoodRelease(db, h) && HoldSound(db, db.holds[h]) && i in db.accounts
    requires ChartEntry(db.holds[h].accountId, db.accounts[db.holds[h].accountId]) && Agrees(db, i)
    ensures Agrees(ReleaseEffect(db, h, reason), i)
  {
    ActivePut(db.holds, h, db.holds[h].(status := ReleasedStatus(reason)), i);
  }

  lemma ReleaseKeepsBooks(db: Db, h: Uuid, reason: string)
    requires Chart(db) && Books(db) && GoodRelease(db, h) && HoldSound(db, db.holds[h])
    ensures Books(ReleaseEffect(db, h, reason))
  {
    var after := ReleaseEffect(db, h, reason);
    forall i | i in after.accounts ensures Agrees(after, i) {
      ReleaseKeepsAgreement(db, h, reason, i);
    }
  }

  lemma ReleaseKeepsCreditBounds(db: Db, h: Uuid, reason: string)
    requires CreditBounds(db) && GoodRelease(db, h) && HoldSound(db, db.holds[h])
    ensures CreditBounds(ReleaseEffect(db, h, reason))
  {
    var after := ReleaseEffect(db, h, reason);
    forall i | i in after.accounts ensures CreditBound(after, i) {
      assert CreditBound(db, i);
    }
  }

  lemma ReleaseKeepsEvents(db: Db, h: Uuid, reason: string)
    requires Tables(db) && HoldsSound(db) && ReservesRebuild(db) && PayablesRebuild(db) && HoldEvents(db)
    requires GoodRelease(db, h)
    ensures var after := ReleaseEffect(db, h, reason);
      ReservesRebuild(after) && PayablesRebuild(after) && HoldEvents(after)
  {
    var after := ReleaseEffect(db, h, reason);
    assert HoldSound(db, db.holds[h]);
    var row := db.holds[h];
    EventAppended(db.outbox, Event(h, row.accountId, row.amount, row.currency, FundsReleased(reason)));
    forall i ensures EventsOfHold(after, i) {
      assert EventsOfHold(db, i);
    }
  }

  lemma ReleaseKeepsLedger(db: Db, h: Uuid, reason: string)
    requires Tables(db) && KeysUnique(db) && Lifecycle(db) && EntriesSound(db) && PostingsBalance(db)
    requires TrialBalance(db) && GoodRelease(db, h)
    ensures var after := ReleaseEffect(db, h, reason);
      KeysUnique(after) && Lifecycle(after) && EntriesSound(after) && PostingsBalance(after) && TrialBalance(after)
  {
    var after := ReleaseEffect(db, h, reason);
    forall t, i | t in after.transactions && after.transactions[t].key == Some(CaptureOf(i))
      ensures CapturedBy(after, i, t)
    {
      assert CapturedBy(db, i, t);
    }
    forall e | e in after.entries ensures EntrySound(after, e) {
      assert EntrySound(db, e);
    }
  }

  lemma ReleaseKeepsInv(db: Db, h: Uuid, reason: string)
    requires Inv(db) && GoodRelease(db, h)
    ensures Inv(ReleaseEffect(db, h, reason))
  {
    ReleaseKeepsTables(db, h, reason);
    ReleaseKeepsConserved(db, h, reason);
    ReleaseKeepsBooks(db, h, reason);
    ReleaseKeepsCreditBounds(db, h, reason);
    ReleaseKeepsEvents(db, h, reason);
    ReleaseKeepsLedger(db, h, reason);
  }

  // Capture

  ghost predicate GoodCapture(db: Db, h: Uuid, amount: int, t: Uuid) {
    && h in db.holds && db.holds[h].status.Active? && 0 < amount <= db.holds[h].amount
    && Supported(db.holds[h].currency)
    && CaptureStorable(db, h, amount, t)
  }

  lemma CaptureKeepsTables(db: Db, h: Uuid, amount: int, t: Uuid)
    requires Tables(db) && Ranges(db) && GoodCapture(db, h, amount, t)
    ensures var after := CaptureEffect(db, h, amount, t);
      Tables(after) && Ranges(after)
  {
  }

  lemma CaptureKeepsChart(db: Db, h: Uuid, amount: int, t: Uuid)
    requires Chart(db) && HoldsSound(db) && OnePerPayment(db) && GoodCapture(db, h, amount, t)
    ensures var after := CaptureEffect(db, h, amount, t);
      Chart(after) && HoldsSound(after) && OnePerPayment(after)
  {
    var after := CaptureEffect(db, h, amount, t);
    forall i | i in after.holds ensures HoldSound(after, after.holds[i]) {
      assert HoldSound(db, db.holds[i]);
    }
  }

  /** Money freed and captured stays owed: it only changes creditor. */
  lemma CaptureMovesLiabilities(accounts: map<Uuid, Account>, bs: map<Uuid, Balance>, row: Hold, amount: int,
                                d: Currency)
    requires Supported(row.currency)
    requires row.accountId in accounts && Payable(row.currency) in accounts
    requires row.accountId in bs && Payable(row.currency) in bs
    requires accounts[row.accountId].kind.Liability? && accounts[row.accountId].currency == row.currency
    requires accounts[Payable(row.currency)].kind.Liability? && accounts[Payable(row.currency)].currency == row.currency
    ensures var middle := Bump(bs, row.accountId, row.amount - amount, -row.amount);
      Liabilities(accounts, Bump(middle, Payable(row.currency), amount, 0), d) == Liabilities(accounts, bs, d)
  {
    hide Liabilities;
    var middle := Bump(bs, row.accountId, row.amount - amount, -row.amount);
    LiabilitiesBump(accounts, bs, row.accountId, row.amount - amount, -row.amount, d);
    LiabilitiesBump(accounts, middle, Payable(row.currency), amount, 0, d);
  }

  lemma CaptureConservesIn(db: Db, h: Uuid, amount: int, t: Uuid, d: Currency)
    requires ConservedIn(db, d) && GoodCapture(db, h, amount, t) && HoldSound(db, db.holds[h])
    requires ChartEntry(db.holds[h].accountId, db.accounts[db.holds[h].accountId])
    requires ChartEntry(Payable(db.holds[h].currency), db.accounts[Payable(db.holds[h].currency)])
    ensures ConservedIn(CaptureEffect(db, h, amount, t), d)
  {
    hide Liabilities;
    CaptureMovesLiabilities(db.accounts, db.balances, db.holds[h], amount, d);
  }

  lemma CaptureKeepsConserved(db: Db, h: Uuid, amount: int, t: Uuid)
    requires Chart(db) && Conserved(db) && GoodCapture(db, h, amount, t) && HoldSound(db, db.holds[h])
    ensures Conserved(CaptureEffect(db, h, amount, t))
  {
    forall d ensures ConservedIn(CaptureEffect(db, h, amount, t), d) {
      CaptureConservesIn(db, h, amount, t, d);
    }
  }

  lemma CaptureKeepsAgreement(db: Db, h: Uuid, amount: int, t: Uuid, i: Uuid)
    requires GoodCapture(db, h, amount, t) && HoldSound(db, db.holds[h]) && i in db.accounts
    requires ChartEntry(i, db.accounts[i]) && Agrees(db, i)
    ensures Agrees(CaptureEffect(db, h, amount, t), i)
  {
    ActivePut(db.holds, h, db.holds[h].(status := Captured), i);
    SidesAfterPair(db.entries, t, CaptureLegs(db.holds[h], amount), i);
  }

  lemma CaptureKeepsBooks(db: Db, h: Uuid, amount: int, t: Uuid)
    requires Chart(db) && Books(db) && GoodCapture(db, h, amount, t) && HoldSound(db, db.holds[h])
    ensures Books(CaptureEffect(db, h, amount, t))
  {
    var after := CaptureEffect(db, h, amount, t);
    forall i | i in after.accounts ensures Agrees(after, i) {
      CaptureKeepsAgreement(db, h, amount, t, i);
    }
  }

  lemma CaptureKeepsCreditBound(db: Db, h: Uuid, amount: int, t: Uuid, i: Uuid)
    requires GoodCapture(db, h, amount, t) && HoldSound(db, db.holds[h]) && i in db.accounts && CreditBound(db, i)
    ensures CreditBound(CaptureEffect(db, h, amount, t), i)
  {
    SidesAfterPair(db.entries, t, CaptureLegs(db.holds[h], amount), i);
  }

  lemma CaptureKeepsCreditBounds(db: Db, h: Uuid, amount: int, t: Uuid)
    requires CreditBounds(db) && GoodCapture(db, h, amount, t) && HoldSound(db, db.holds[h])
    ensures CreditBounds(CaptureEffect(db, h, amount, t))
  {
    var after := CaptureEffect(db, h, amount, t);
    forall i | i in after.accounts ensures CreditBound(after, i) {
      CaptureKeepsCreditBound(db, h, amount, t, i);
    }
  }

  lemma CaptureAppends(db: Db, h: Uuid, amount: int, t: Uuid)
    requires GoodCapture(db, h, amount, t)
    ensures var row := db.holds[h];
      var captured := Event(h, row.accountId, amount, row.currency, FundsCaptured(t));
      var released := Event(h, row.accountId, row.amount - amount, row.currency,
                         FundsReleased("partial_capture_remainder"));
      CaptureEffect(db, h, amount, t).outbox
        == if amount < row.amount then db.outbox + [captured] + [released] else db.outbox + [captured]
  {
  }

  lemma CaptureAppendsReserve(db: Db, h: Uuid, amount: int, t: Uuid)
    requires GoodCapture(db, h, amount, t)
    ensures var out := CaptureEffect(db, h, amount, t).outbox;
      && (forall i :: Reserved(out, i)
                   == Reserved(db.outbox, i) - (if i == db.holds[h].accountId then db.holds[h].amount else 0))
      && (forall c :: CapturedIn(out, c)
                   == CapturedIn(db.outbox, c) + (if c == db.holds[h].currency then amount else 0))
      && (forall e :: e in out ==> e in db.outbox || e.accountId == db.holds[h].accountId)
  {
    var row := db.holds[h];
    var captured := Event(h, row.accountId, amount, row.currency, FundsCaptured(t));
    var released := Event(h, row.accountId, row.amount - amount, row.currency,
                         FundsReleased("partial_capture_remainder"));
    CaptureAppends(db, h, amount, t);
    EventAppended(db.outbox, captured);
    EventAppended(db.outbox + [captured], released);
  }

  lemma CaptureKeepsReserves(db: Db, h: Uuid, amount: int, t: Uuid)
    requires ReservesRebuild(db) && GoodCapture(db, h, amount, t) && HoldSound(db, db.holds[h])
    ensures ReservesRebuild(CaptureEffect(db, h, amount, t))
  {
    CaptureAppendsReserve(db, h, amount, t);
  }

  lemma CaptureKeepsPayables(db: Db, h: Uuid, amount: int, t: Uuid)
    requires PayablesRebuild(db) && GoodCapture(db, h, amount, t) && HoldSound(db, db.holds[h])
    ensures PayablesRebuild(CaptureEffect(db, h, amount, t))
  {
    CaptureAppendsReserve(db, h, amount, t);
    var after := CaptureEffect(db, h, amount, t);
    forall c | Supported(c)
      ensures Payable(c) in after.balances && after.balances[Payable(c)].available == CapturedIn(after.outbox, c)
    {
      assert Payable(c) in db.balances && IsSystem(Payable(c));
    }
  }

  lemma CaptureKeepsHoldEvents(db: Db, h: Uuid, amount: int, t: Uuid)
    requires HoldEvents(db) && GoodCapture(db, h, amount, t)
    ensures HoldEvents(CaptureEffect(db, h, amount, t))
  {
    var after := CaptureEffect(db, h, amount, t);
    var row := db.holds[h];
    var captured := Event(h, row.accountId, amount, row.currency, FundsCaptured(t));
    var released := Event(h, row.accountId, row.amount - amount, row.currency,
                         FundsReleased("partial_capture_remainder"));
    CaptureAppends(db, h, amount, t);
    EventAppended(db.outbox, captured);
    EventAppended(db.outbox + [captured], released);
    forall i ensures EventsOfHold(after, i) {
      assert EventsOfHold(db, i);
    }
  }

  lemma CaptureKeepsPostings(db: Db, h: Uuid, amount: int, t: Uuid)
    requires Tables(db) && Chart(db) && HoldsSound(db) && EntriesSound(db) && PostingsBalance(db) && TrialBalance(db)
    requires GoodCapture(db, h, amount, t)
    ensures var after := CaptureEffect(db, h, amount, t);
      EntriesSound(after) && PostingsBalance(after) && TrialBalance(after)
  {
    var after := CaptureEffect(db, h, amount, t);
    var row := db.holds[h];
    var legs := CaptureLegs(row, amount);
    assert HoldSound(db, row) && ChartEntry(Payable(row.currency), db.accounts[Payable(row.currency)]);
    PostingKeepsBooks(db, after, t, legs, amount);
  }

  lemma CaptureKeepsLifecycle(db: Db, h: Uuid, amount: int, t: Uuid)
    requires Tables(db) && EntriesSound(db) && KeysUnique(db) && Lifecycle(db) && GoodCapture(db, h, amount, t)
    ensures var after := CaptureEffect(db, h, amount, t);
      KeysUnique(after) && Lifecycle(after)
  {
    var after := CaptureEffect(db, h, amount, t);
    var legs := CaptureLegs(db.holds[h], amount);
    forall u, i | u in after.transactions && after.transactions[u].key == Some(CaptureOf(i))
      ensures CapturedBy(after, i, u)
    {
      LegsAfterPair(db.entries, t, legs, u);
      if u == t {
        FreshHasNoLegs(db, t);
      } else {
        assert CapturedBy(db, i, u);
      }
    }
    forall i | i in after.holds && after.holds[i].status.Captured? ensures KeyUsed(after.transactions, CaptureOf(i)) {
      if i == h {
        assert after.transactions[t].key == Some(CaptureOf(i));
      } else {
        var u :| u in db.transactions && db.transactions[u].key == Some(CaptureOf(i));
        assert u in after.transactions && after.transactions[u].key == Some(CaptureOf(i));
      }
    }
  }

  lemma CaptureKeepsInv(db: Db, h: Uuid, amount: int, t: Uuid)
    requires Inv(db) && GoodCapture(db, h, amount, t)
    ensures Inv(CaptureEffect(db, h, amount, t))
  {
    CaptureKeepsTables(db, h, amount, t);
    CaptureKeepsChart(db, h, amount, t);
    CaptureKeepsConserved(db, h, amount, t);
    CaptureKeepsBooks(db, h, amount, t);
    CaptureKeepsCreditBounds(db, h, amount, t);
    CaptureKeepsReserves(db, h, amount, t);
    CaptureKeepsPayables(db, h, amount, t);
    CaptureKeepsHoldEvents(db, h, amount, t);
    CaptureKeepsPostings(db, h, amount, t);
    CaptureKeepsLifecycle(db, h, amount, t);
  }

  // Any balanced two-leg posting

  lemma FreshHasNoLegs(db: Db, t: Uuid)
    requires EntriesSound(db) && t !in db.transactions
    ensures LegsOf(db.entries, t) == []
  {
    forall e | e in db.entries ensures e.transactionId != t {
      assert EntrySound(db, e);
    }
    NoLegs(db.entries, t);
  }

  lemma PostingKeepsBooks(db: Db, after: Db, t: Uuid, legs: seq<Leg>, amount: int)
    requires EntriesSound(db) && PostingsBalance(db) && TrialBalance(db)
    requires t !in db.transactions && 0 < amount
    requires |legs| == 2
    requires legs == [Leg(legs[0].accountId, Debit, amount, legs[0].currency),
                      Leg(legs[1].accountId, Credit, amount, legs[0].currency)]
    requires forall l :: l in legs ==> l.accountId in db.accounts && db.accounts[l.accountId].currency == l.currency
    requires after.accounts == db.accounts && after.transactions.Keys == db.transactions.Keys + {t}
    requires after.entries == db.entries + Entries(t, legs)
    ensures EntriesSound(after) && PostingsBalance(after) && TrialBalance(after)
  {
    PairSplits(db.entries, t, legs);
    forall e | e in after.entries ensures EntrySound(after, e) {
      if e in db.entries {
        assert EntrySound(db, e);
      } else {
        assert e == Entry(t, legs[0]) || e == Entry(t, legs[1]);
        assert legs[0] in legs && legs[1] in legs;
      }
    }
    forall u | u in after.transactions ensures Validate.Exact(LegsOf(after.entries, u)) {
      LegsAfterPair(db.entries, t, legs, u);
      if u == t {
        FreshHasNoLegs(db, t);
        Validate.PairIsBalanced(legs[0].accountId, legs[1].accountId, amount, legs[0].currency);
        assert LegsOf(after.entries, u) == legs;
      } else {
        assert LegsOf(after.entries, u) == LegsOf(db.entries, u);
      }
    }
    forall c ensures AllDebits(after.entries, c) == AllCredits(after.entries, c) {
      TotalsAfterPair(db.entries, t, legs, c);
      assert AllDebits(db.entries, c) == AllCredits(db.entries, c);
    }
  }

  // Deposit

  /** A storable deposit into a user account, in that account's currency, under a key that no capture uses. */
  ghost predicate GoodDeposit(db: Db, a: Uuid, amount: int, c: Currency, key: Key, t: Uuid) {
    && 0 < amount && Supported(c) && key.WelcomeOf?
    && a in db.accounts && !IsSystem(a) && db.accounts[a].currency == c
    && DepositStorable(db, a, amount, c, key, t)
  }

  lemma DepositKeepsTables(db: Db, a: Uuid, amount: int, c: Currency, key: Key, t: Uuid)
    requires Tables(db) && Ranges(db) && GoodDeposit(db, a, amount, c, key, t)
    ensures var after := DepositEffect(db, a, amount, c, key, t);
      Tables(after) && Ranges(after)
  {
  }

  lemma DepositKeepsChart(db: Db, a: Uuid, amount: int, c: Currency, key: Key, t: Uuid)
    requires Chart(db) && HoldsSound(db) && OnePerPayment(db) && GoodDeposit(db, a, amount, c, key, t)
    ensures var after := DepositEffect(db, a, amount, c, key, t);
      Chart(after) && HoldsSound(after) && OnePerPayment(after)
  {
    var after := DepositEffect(db, a, amount, c, key, t);
    forall h | h in after.holds ensures HoldSound(after, after.holds[h]) {
      assert HoldSound(db, db.holds[h]);
    }
  }

  lemma DepositKeepsConserved(db: Db, a: Uuid, amount: int, c: Currency, key: Key, t: Uuid)
    requires Tables(db) && Conserved(db) && GoodDeposit(db, a, amount, c, key, t)
    requires ChartEntry(a, db.accounts[a]) && ChartEntry(Settlement(c), db.accounts[Settlement(c)])
    ensures Conserved(DepositEffect(db, a, amount, c, key, t))
  {
    var after := DepositEffect(db, a, amount, c, key, t);
    var middle := Bump(db.balances, Settlement(c), amount, 0);
    forall d ensures ConservedIn(after, d) {
      assert ConservedIn(db, d);
      LiabilitiesBump(db.accounts, db.balances, Settlement(c), amount, 0, d);
      LiabilitiesBump(db.accounts, middle, a, amount, 0, d);
    }
  }

  lemma DepositKeepsAgreement(db: Db, a: Uuid, amount: int, c: Currency, key: Key, t: Uuid, i: Uuid)
    requires GoodDeposit(db, a, amount, c, key, t) && i in db.accounts
    requires ChartEntry(i, db.accounts[i]) && Agrees(db, i) && CreditBound(db, i)
    ensures var after := DepositEffect(db, a, amount, c, key, t);
      Agrees(after, i) && CreditBound(after, i)
  {
    SidesAfterPair(db.entries, t, DepositLegs(a, amount, c), i);
  }

  lemma DepositKeepsBooks(db: Db, a: Uuid, amount: int, c: Currency, key: Key, t: Uuid)
    requires Chart(db) && Books(db) && CreditBounds(db) && GoodDeposit(db, a, amount, c, key, t)
    ensures var after := DepositEffect(db, a, amount, c, key, t);
      Books(after) && CreditBounds(after)
  {
    var after := DepositEffect(db, a, amount, c, key, t);
    forall i | i in after.accounts ensures Agrees(after, i) && CreditBound(after, i) {
      DepositKeepsAgreement(db, a, amount, c, key, t, i);
    }
  }

  lemma DepositKeepsRebuild(db: Db, a: Uuid, amount: int, c: Currency, key: Key, t: Uuid)
    requires Tables(db) && ReservesRebuild(db) && PayablesRebuild(db) && GoodDeposit(db, a, amount, c, key, t)
    ensures var after := DepositEffect(db, a, amount, c, key, t);
      ReservesRebuild(after) && PayablesRebuild(after)
  {
    hide Reserved, CapturedIn;
  }

  lemma DepositKeepsEvents(db: Db, a: Uuid, amount: int, c: Currency, key: Key, t: Uuid)
    requires HoldEvents(db) && GoodDeposit(db, a, amount, c, key, t)
    ensures HoldEvents(DepositEffect(db, a, amount, c, key, t))
  {
    hide HeldFor, CapturedFor, ReleasedFor;
    var after := DepositEffect(db, a, amount, c, key, t);
    forall h ensures EventsOfHold(after, h) {
      assert EventsOfHold(db, h);
    }
  }

  lemma DepositKeepsLifecycle(db: Db, a: Uuid, amount: int, c: Currency, key: Key, t: Uuid)
    requires KeysUnique(db) && Lifecycle(db) && GoodDeposit(db, a, amount, c, key, t)
    ensures var after := DepositEffect(db, a, amount, c, key, t);
      KeysUnique(after) && Lifecycle(after)
  {
    var after := DepositEffect(db, a, amount, c, key, t);
    forall u, i | u in after.transactions && after.transactions[u].key == Some(CaptureOf(i))
      ensures CapturedBy(after, i, u)
    {
      assert CapturedBy(db, i, u);
      LegsAfterPair(db.entries, t, DepositLegs(a, amount, c), u);
    }
    forall i | i in after.holds && after.holds[i].status.Captured? ensures KeyUsed(after.transactions, CaptureOf(i)) {
      var u :| u in db.transactions && db.transactions[u].key == Some(CaptureOf(i));
      assert u in after.transactions && after.transactions[u].key == Some(CaptureOf(i));
    }
  }

  lemma DepositKeepsLedger(db: Db, a: Uuid, amount: int, c: Currency, key: Key, t: Uuid)
    requires Tables(db) && Chart(db) && EntriesSound(db) && PostingsBalance(db)
    requires TrialBalance(db) && GoodDeposit(db, a, amount, c, key, t)
    ensures var after := DepositEffect(db, a, amount, c, key, t);
      EntriesSound(after) && PostingsBalance(after) && TrialBalance(after)
  {
    assert ChartEntry(Settlement(c), db.accounts[Settlement(c)]);
    PostingKeepsBooks(db, DepositEffect(db, a, amount, c, key, t), t, DepositLegs(a, amount, c), amount);
  }

  lemma DepositKeepsInv(db: Db, a: Uuid, amount: int, c: Currency, key: Key, t: Uuid)
    requires Inv(db) && GoodDeposit(db, a, amount, c, key, t)
    ensures Inv(DepositEffect(db, a, amount, c, key, t))
  {
    DepositKeepsTables(db, a, amount, c, key, t);
    DepositKeepsChart(db, a, amount, c, key, t);
    DepositKeepsConserved(db, a, amount, c, key, t);
    DepositKeepsBooks(db, a, amount, c, key, t);
    DepositKeepsRebuild(db, a, amount, c, key, t);
    DepositKeepsEvents(db, a, amount, c, key, t);
    DepositKeepsLifecycle(db, a, amount, c, key, t);
    DepositKeepsLedger(db, a, amount, c, key, t);
  }

  // Opening an account

  lemma StrangerIsUntouched(db: Db, a: Uuid)
    requires Tables(db) && HoldsSound(db) && EntriesSound(db) && ReservesRebuild(db) && a !in db.accounts
    ensures Debits(db.entries, a) == Credits(db.entries, a) == 0
    ensures ActiveSum(db.holds, a) == 0 && Reserved(db.outbox, a) == 0
  {
    forall e | e in db.entries ensures e.leg.accountId != a {
      assert EntrySound(db, e);
    }
    NoSides(db.entries, a);
    NothingActive(db.holds, a);
    NothingReserved(db.outbox, a);
  }

  lemma OpenKeepsTables(db: Db, a: Uuid, userId: Uuid, c: Currency)
    requires Tables(db) && Ranges(db) && Chart(db) && HoldsSound(db) && OnePerPayment(db)
    requires a !in db.accounts && Supported(c)
    ensures var after := OpenEffect(db, a, userId, c);
      Tables(after) && Ranges(after) && Chart(after) && HoldsSound(after) && OnePerPayment(after)
  {
    var after := OpenEffect(db, a, userId, c);
    forall h | h in after.holds ensures HoldSound(after, after.holds[h]) {
      assert HoldSound(db, db.holds[h]);
    }
  }

  lemma OpenKeepsConserved(db: Db, a: Uuid, userId: Uuid, c: Currency)
    requires Tables(db) && Conserved(db) && a !in db.accounts
    ensures Conserved(OpenEffect(db, a, userId, c))
  {
    var after := OpenEffect(db, a, userId, c);
    forall d ensures ConservedIn(after, d) {
      assert ConservedIn(db, d);
      LiabilitiesOpen(db, a, userId, c, d);
    }
  }

  lemma OpenedAgrees(db: Db, a: Uuid, userId: Uuid, c: Currency)
    requires Debits(db.entries, a) == Credits(db.entries, a) == 0 && ActiveSum(db.holds, a) == 0
    requires !IsSystem(a) && Supported(c) && Settlement(c) in db.balances && 0 <= db.balances[Settlement(c)].available
    ensures var after := OpenEffect(db, a, userId, c);
      Agrees(after, a) && CreditBound(after, a)
  {
  }

  lemma OthersAgree(db: Db, a: Uuid, userId: Uuid, c: Currency, i: Uuid)
    requires a !in db.balances && i in db.accounts && i != a && Agrees(db, i) && CreditBound(db, i)
    ensures var after := OpenEffect(db, a, userId, c);
      Agrees(after, i) && CreditBound(after, i)
  {
  }

  lemma OpenKeepsBooks(db: Db, a: Uuid, userId: Uuid, c: Currency)
    requires Tables(db) && Ranges(db) && Chart(db) && HoldsSound(db) && EntriesSound(db) && ReservesRebuild(db)
    requires Books(db) && CreditBounds(db) && a !in db.accounts && Supported(c)
    ensures var after := OpenEffect(db, a, userId, c);
      Books(after) && CreditBounds(after)
  {
    var after := OpenEffect(db, a, userId, c);
    forall i | i in after.accounts ensures Agrees(after, i) && CreditBound(after, i) {
      if i == a {
        StrangerIsUntouched(db, a);
        assert Settlement(c) in db.accounts;
        OpenedAgrees(db, a, userId, c);
      } else {
        OthersAgree(db, a, userId, c, i);
      }
    }
  }

  lemma OpenKeepsEvents(db: Db, a: Uuid, userId: Uuid, c: Currency)
    requires Tables(db) && HoldsSound(db) && EntriesSound(db) && ReservesRebuild(db) && PayablesRebuild(db)
    requires HoldEvents(db)
    requires a !in db.accounts
    ensures var after := OpenEffect(db, a, userId, c);
      ReservesRebuild(after) && PayablesRebuild(after) && HoldEvents(after)
  {
    var after := OpenEffect(db, a, userId, c);
    StrangerIsUntouched(db, a);
    forall h ensures EventsOfHold(after, h) {
      assert EventsOfHold(db, h);
    }
  }

  lemma OpenKeepsLedger(db: Db, a: Uuid, userId: Uuid, c: Currency)
    requires KeysUnique(db) && Lifecycle(db) && EntriesSound(db) && PostingsBalance(db) && TrialBalance(db)
    requires a !in db.accounts
    ensures var after := OpenEffect(db, a, userId, c);
      KeysUnique(after) && Lifecycle(after) && EntriesSound(after) && PostingsBalance(after) && TrialBalance(after)
  {
    var after := OpenEffect(db, a, userId, c);
    forall t, h | t in after.transactions && after.transactions[t].key == Some(CaptureOf(h))
      ensures CapturedBy(after, h, t)
    {
      assert CapturedBy(db, h, t);
    }
    forall e | e in after.entries ensures EntrySound(after, e) {
      assert EntrySound(db, e);
    }
  }

  lemma OpenKeepsInv(db: Db, a: Uuid, userId: Uuid, c: Currency)
    requires Inv(db) && a !in db.accounts && Supported(c)
    ensures Inv(OpenEffect(db, a, userId, c))
  {
    OpenKeepsTables(db, a, userId, c);
    OpenKeepsConserved(db, a, userId, c);
    OpenKeepsBooks(db, a, userId, c);
    OpenKeepsEvents(db, a, userId, c);
    OpenKeepsLedger(db, a, userId, c);
  }
}
