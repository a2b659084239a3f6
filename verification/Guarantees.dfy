/** The main results about reachable states, in the terms of the repository's documentation. */
module Guarantees {
  import opened Int64
  import opened Schema
  import opened Effects
  import opened Invariants
  import opened Machine
  import opened Safety
  import Deltas
  import NoStuck
  import Accounts
  import Validate
  import Reconcile

  /** Release of an active hold, capture within it, and an affordable hold never fail. */
  lemma NoStuckMoney(db: Db, inp: Inputs, h: Uuid, reason: string, amount: int, a: Uuid, p: Uuid, c: Currency, x: int)
    requires Reachable(db) && inp.txnId !in db.transactions && inp.holdId !in db.holds
    ensures Tables(db)
    ensures ReleaseSpec(db, h, reason).Ok? <==> h in db.holds && db.holds[h].status.Active?
    ensures CaptureSpec(db, h, amount, inp.txnId).Ok?
      <==> h in db.holds && db.holds[h].status.Active? && 0 < amount <= db.holds[h].amount
    ensures HoldSpec(db, inp.holdId, a, p, amount, c, x).Ok?
      <==> a in db.accounts && db.accounts[a].currency == c && 0 < amount <= db.balances[a].available
           && !HasActive(db.holds, p)
  {
    hide Reachable, ReleaseSpec, CaptureSpec, HoldSpec;
    ReachableInv(db);
    StuckFree(db, inp, h, reason, amount, a, p, c, x);
  }

  lemma StuckFree(db: Db, inp: Inputs, h: Uuid, reason: string, amount: int, a: Uuid, p: Uuid, c: Currency, x: int)
    requires Inv(db) && inp.txnId !in db.transactions && inp.holdId !in db.holds
    ensures Tables(db)
    ensures ReleaseSpec(db, h, reason).Ok? <==> h in db.holds && db.holds[h].status.Active?
    ensures CaptureSpec(db, h, amount, inp.txnId).Ok?
      <==> h in db.holds && db.holds[h].status.Active? && 0 < amount <= db.holds[h].amount
    ensures HoldSpec(db, inp.holdId, a, p, amount, c, x).Ok?
      <==> a in db.accounts && db.accounts[a].currency == c && 0 < amount <= db.balances[a].available
           && !HasActive(db.holds, p)
  {
    hide ReleaseSpec, CaptureSpec, HoldSpec, HasActive;
    NoStuck.ReleaseNeverSticks(db, h, reason);
    NoStuck.CaptureNeverSticks(db, h, amount, inp.txnId);
    NoStuck.HoldNeverSticks(db, inp.holdId, a, p, amount, c, x);
  }

  /** A positive deposit in the account's currency, under a new key, fails iff the settlement row would overflow. */
  lemma DepositFailsOnlyOnOverflow(db: Db, a: Uuid, amount: int, c: Currency, key: Key, t: Uuid)
    requires Reachable(db) && a in db.accounts && !IsSystem(a) && db.accounts[a].currency == c && 0 < amount
    requires t !in db.transactions && !KeyUsed(db.transactions, key)
    ensures Tables(db) && Supported(c) && Settlement(c) in db.balances
    ensures DepositSpec(db, a, amount, c, key, t).Ok? <==> db.balances[Settlement(c)].available + amount <= MAX
  {
    hide Reachable, Inv, DepositSpec;
    ReachableInv(db);
    InvCompensates(db);
    NoStuck.DepositSticksAtTheTop(db, a, amount, c, key, t);
  }

  /** Per currency, the settlement account equals all that is owed to users and merchants. */
  lemma MoneyIsConserved(db: Db, c: Currency)
    requires Reachable(db) && Supported(c)
    ensures Settlement(c) in db.balances
    ensures db.balances[Settlement(c)].available == Liabilities(db.accounts, db.balances, c) <= MAX
  {
    hide Reachable, Books, CreditBounds, Lifecycle, HoldEvents;
    ReachableInv(db);
    assert ConservedIn(db, c);
  }

  /** Reconciliation of a reachable state scans every sum and finds no drift. */
  lemma ReconciliationIsClean(db: Db, rows: seq<Reconcile.Row>)
    requires Reachable(db) && Reconcile.Answers(db, rows)
    ensures forall i :: 0 <= i < |rows| ==> Reconcile.Scans(rows[i])
    ensures Reconcile.Count(rows) == 0 && Reconcile.Drifted(db) == {}
  {
    hide Reachable, Agrees, Reconcile.Answers, Reconcile.Scans, Reconcile.Count;
    ReachableInv(db);
    Reconcile.CleanWhenInvariant(db, rows);
  }

  /** Every sum fits int64, and credits - debits - active holds does not wrap. */
  lemma ReconcileArithmeticIsExact(db: Db, a: Uuid)
    requires Reachable(db) && a in db.accounts
    ensures 0 <= Debits(db.entries, a) <= MAX && 0 <= Credits(db.entries, a) <= MAX
    ensures 0 <= ActiveSum(db.holds, a) <= MAX
    ensures 0 <= Expected(db, a) <= MAX
  {
    hide Reachable, Debits, Credits, ActiveSum, Expected;
    ReachableInv(db);
    NoStuck.ReconcileSumsFit(db, a);
  }

  /** The outbox alone rebuilds what is reserved and what the merchants are owed. */
  lemma OutboxRebuildsBalances(db: Db, a: Uuid, c: Currency)
    requires Reachable(db) && a in db.accounts && Supported(c)
    ensures a in db.balances && db.balances[a].held == Reserved(db.outbox, a)
    ensures Payable(c) in db.balances && db.balances[Payable(c)].available == CapturedIn(db.outbox, c)
  {
    hide Reachable, Reserved, CapturedIn;
    ReachableInv(db);
  }

  /** Each hold is announced once in full; once ended, captured and released amounts add up to it. */
  lemma OutboxTellsEachHold(db: Db, h: Uuid)
    requires Reachable(db) && h in db.holds
    ensures HeldFor(db.outbox, h) == db.holds[h].amount
    ensures CapturedFor(db.outbox, h) + ReleasedFor(db.outbox, h)
         == if db.holds[h].status.Active? then 0 else db.holds[h].amount
    ensures CapturedFor(db.outbox, h) > 0 <==> db.holds[h].status.Captured?
  {
    hide Reachable, HeldFor, CapturedFor, ReleasedFor;
    ReachableInv(db);
    assert EventsOfHold(db, h);
  }

  /** The capture posting of hold h: two equal legs, from its account to the merchant, within the hold. */
  ghost predicate IsCapturePosting(db: Db, h: Uuid, t: Uuid) {
    t in db.transactions && db.transactions[t].key == Some(CaptureOf(h))
  }

  /** A hold is captured iff exactly one transaction has its capture key, and that one has the right legs. */
  lemma CapturedIffPosted(db: Db, h: Uuid)
    requires Reachable(db) && h in db.holds
    ensures db.holds[h].status.Captured? <==> exists t :: IsCapturePosting(db, h, t)
    ensures forall t, u :: IsCapturePosting(db, h, t) && IsCapturePosting(db, h, u) ==> t == u
    ensures forall t :: IsCapturePosting(db, h, t) ==>
      && Supported(db.holds[h].currency)
      && exists m :: 0 < m <= db.holds[h].amount && LegsOf(db.entries, t) == CaptureLegs(db.holds[h], m)
  {
    hide Reachable, Inv;
    ReachableInv(db);
    LifecycleOf(db);
    forall t | IsCapturePosting(db, h, t)
      ensures db.holds[h].status.Captured? && Supported(db.holds[h].currency)
      ensures exists m :: 0 < m <= db.holds[h].amount && LegsOf(db.entries, t) == CaptureLegs(db.holds[h], m)
    {
      assert CapturedBy(db, h, t);
    }
    if db.holds[h].status.Captured? {
      var t :| t in db.transactions && db.transactions[t].key == Some(CaptureOf(h));
      assert IsCapturePosting(db, h, t);
    }
  }

  lemma LifecycleOf(db: Db)
    requires Inv(db)
    ensures KeysUnique(db) && Lifecycle(db)
  {
  }

  /** Every posting balances in every currency, and so does the whole ledger. */
  lemma LedgerBalances(db: Db, t: Uuid, c: Currency)
    requires Reachable(db) && t in db.transactions
    ensures Validate.Exact(LegsOf(db.entries, t))
    ensures AllDebits(db.entries, c) == AllCredits(db.entries, c)
    ensures forall e :: e in db.entries ==> EntrySound(db, e)
  {
    hide Reachable, Validate.Exact, EntrySound;
    ReachableInv(db);
  }

  // Payment compensation

  /** Two active holds of one payment are the same hold. */
  lemma OneActiveHoldPerPayment(db: Db, g: Uuid, h: Uuid, p: Uuid)
    requires Reachable(db) && IsActiveFor(db, p, g) && IsActiveFor(db, p, h)
    ensures g == h
  {
    hide Reachable, Books, CreditBounds, Lifecycle, HoldEvents;
    ReachableInv(db);
    assert OnePerPayment(db);
  }

  lemma FoundIffActive(db: Db, p: Uuid)
    ensures ActiveFor(db, p).Some? <==> HasActive(db.holds, p)
    ensures ActiveFor(db, p).Some? ==> IsActiveFor(db, p, ActiveFor(db, p).value)
  {
    if HasActive(db.holds, p) {
      var h :| h in db.holds && db.holds[h].status.Active? && db.holds[h].paymentId == p;
      assert IsActiveFor(db, p, h);
    }
  }

  lemma ReleasedPaymentIsFree(db: Db, h: Uuid, p: Uuid, reason: string)
    requires OnePerPayment(db) && IsActiveFor(db, p, h) && db.holds[h].accountId in db.balances
    ensures !HasActive(ReleaseEffect(db, h, reason).holds, p)
  {
    var after := ReleaseEffect(db, h, reason);
    forall g | g in after.holds && after.holds[g].status.Active? ensures after.holds[g].paymentId != p {
      assert g != h;
    }
  }

  lemma CompensationCompletes(db: Db, p: Uuid, reason: string)
    requires Tables(db) && OnePerPayment(db) && ReleaseByPaymentSpec(db, p, reason).Ok?
    ensures var after := ReleaseByPaymentSpec(db, p, reason).value;
      !HasActive(after.holds, p) && Tables(after) && ReleaseByPaymentSpec(after, p, reason) == Ok(after)
  {
    FoundIffActive(db, p);
    if ActiveFor(db, p).Some? {
      ReleasedPaymentIsFree(db, ActiveFor(db, p).value, p, reason);
    }
    FoundIffActive(ReleaseByPaymentSpec(db, p, reason).value, p);
  }

  /** After a committed release by payment nothing is left to release, and a second call changes nothing. */
  lemma CompensationIsComplete(db: Db, p: Uuid, reason: string)
    requires Reachable(db)
    ensures Tables(db) && ReleaseByPaymentSpec(db, p, reason).Ok?
    ensures var after := ReleaseByPaymentSpec(db, p, reason).value;
      !HasActive(after.holds, p) && Tables(after) && ReleaseByPaymentSpec(after, p, reason) == Ok(after)
  {
    hide Reachable, Inv;
    ReachableInv(db);
    InvCompensates(db);
    if ActiveFor(db, p).Some? {
      assert IsActiveFor(db, p, ActiveFor(db, p).value);
      NoStuck.ReleaseNeverSticks(db, ActiveFor(db, p).value, reason);
    }
    CompensationCompletes(db, p, reason);
  }

  lemma InvCompensates(db: Db)
    requires Inv(db)
    ensures Tables(db) && Ranges(db) && Chart(db) && HoldsSound(db) && OnePerPayment(db) && Conserved(db) && Books(db)
  {
  }

  /** An idempotency key is used by at most one ledger transaction: one welcome deposit a user. */
  lemma KeyIsUsedOnce(db: Db, key: Key, t: Uuid, u: Uuid)
    requires Reachable(db) && t in db.transactions && u in db.transactions
    requires db.transactions[t].key == db.transactions[u].key == Some(key)
    ensures t == u
  {
    hide Reachable, Inv;
    ReachableInv(db);
    LifecycleOf(db);
  }

  /**
   * Deposit does not compare its currency with the account's: the entries stay in their accounts'
   * currencies exactly when the caller passes the account's own currency, as the consumer does.
   */
  lemma DepositKeepsCurrencyIff(db: Db, a: Uuid, amount: int, c: Currency, key: Key, t: Uuid)
    requires Tables(db) && Chart(db) && EntriesSound(db) && DepositSpec(db, a, amount, c, key, t).Ok?
    ensures EntriesSound(DepositSpec(db, a, amount, c, key, t).value) <==> db.accounts[a].currency == c
  {
    var after := DepositSpec(db, a, amount, c, key, t).value;
    var legs := DepositLegs(a, amount, c);
    Deltas.PairSplits(db.entries, t, legs);
    assert after.entries == db.entries + [Entry(t, legs[0])] + [Entry(t, legs[1])];
    assert Entry(t, legs[1]) in after.entries;
    assert ChartEntry(Settlement(c), db.accounts[Settlement(c)]);
    if db.accounts[a].currency == c {
      forall e | e in after.entries ensures EntrySound(after, e) {
        if e in db.entries {
          assert EntrySound(db, e);
        }
      }
    } else {
      assert !EntrySound(after, Entry(t, legs[1]));
    }
  }

  /** A hold as the RPC accepts it, on an account that the caller chooses. */
  function Reserve(requestId: string, a: Uuid, p: Uuid, amount: int, holdId: Uuid, now: int, ttl: int): Attempt {
    Attempt(HoldRpc(requestId, a, p, amount, USD, ttl), Inputs(now, holdId, 0, 0, [], None), true)
  }

  lemma ReserveIsHold(db: Db, requestId: string, a: Uuid, p: Uuid, amount: int, holdId: Uuid, now: int, ttl: int)
    requires Tables(db) && requestId !in db.responses && HoldSpec(db, holdId, a, p, amount, USD, now + ttl).Ok?
    ensures SameMoney(HoldSpec(db, holdId, a, p, amount, USD, now + ttl).value,
                      Step(db, Reserve(requestId, a, p, amount, holdId, now, ttl)))
  {
    hide HoldSpec;
  }

  lemma SameDrift(db: Db, after: Db)
    requires SameMoney(db, after)
    ensures Reconcile.Drifted(after) == Reconcile.Drifted(db)
  {
    assert forall a :: a in db.accounts ==> (Agrees(after, a) <==> Agrees(db, a));
  }

  lemma SettlementHoldDrifts(db: Db, requestId: string, p: Uuid, amount: int, holdId: Uuid, now: int, ttl: int)
    requires Inv(db) && db.holds == map[] && requestId !in db.responses
    requires Settlement(USD) in db.balances && 0 < amount <= db.balances[Settlement(USD)].available
    ensures Reconcile.Drifted(Step(db, Reserve(requestId, Settlement(USD), p, amount, holdId, now, ttl)))
         == {Settlement(USD)}
  {
    hide Inv, Step, HoldSpec, Agrees;
    InvCompensates(db);
    assert IsSystem(Settlement(USD)) && ChartEntry(Settlement(USD), db.accounts[Settlement(USD)]);
    NoStuck.HoldNeverSticks(db, holdId, Settlement(USD), p, amount, USD, now + ttl);
    ReserveIsHold(db, requestId, Settlement(USD), p, amount, holdId, now, ttl);
    var held := HoldSpec(db, holdId, Settlement(USD), p, amount, USD, now + ttl).value;
    Reconcile.HoldDriftsIffDebitAccount(db, holdId, Settlement(USD), p, amount, USD, now + ttl);
    SameDrift(held, Step(db, Reserve(requestId, Settlement(USD), p, amount, holdId, now, ttl)));
  }

  /**
   * The assumption that holds target user accounts is needed: in the migrated database, after one funded
   * registration, a hold on the settlement account that no check refuses makes that account drift.
   */
  lemma HoldOnSettlementDrifts(e: Uuid, u: Uuid, seed: int, a: Uuid, t: Uuid, requestId: string, p: Uuid,
                               amount: int, holdId: Uuid, now: int, ttl: int)
    requires !IsSystem(a) && 0 < amount <= seed <= MAX
    ensures Reachable(Run(Initial(), [Accounts.Register(e, u, seed, a, t)]))
    ensures Reconcile.Drifted(Run(Initial(), [Accounts.Register(e, u, seed, a, t),
                                              Reserve(requestId, Settlement(USD), p, amount, holdId, now, ttl)]))
         == {Settlement(USD)}
  {
    hide Inv, Step, Run, Reconcile.Drifted;
    var r := Accounts.Register(e, u, seed, a, t);
    assert AdmissibleRun([r]);
    RunOfTwo(Initial(), r, Reserve(requestId, Settlement(USD), p, amount, holdId, now, ttl));
    Accounts.FirstRegistration(e, u, seed, a, t);
    SettlementHoldDrifts(Step(Initial(), r), requestId, p, amount, holdId, now, ttl);
  }
}
