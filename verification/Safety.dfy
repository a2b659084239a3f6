/** The invariant holds in every reachable state, and what follows from it. */
module Safety {
  import opened Schema
  import opened Sums
  import opened Effects
  import opened Invariants
  import opened Deltas
  import opened Preservation
  import opened Machine

  lemma InitialTables()
    ensures var db := Initial();
      Tables(db) && Ranges(db) && Chart(db) && HoldsSound(db) && OnePerPayment(db)
  {
  }

  lemma InitialConserved()
    ensures Conserved(Initial())
  {
    var db := Initial();
    forall c ensures ConservedIn(db, c) {
      TotalOfZeros(Shares(db.accounts, db.balances, c));
      if Supported(c) {
        assert Settlement(c) in SYSTEM_IDS;
      }
    }
  }

  lemma InitialBooks()
    ensures var db := Initial();
      Books(db) && CreditBounds(db)
  {
    var db := Initial();
    forall a | a in db.accounts ensures Agrees(db, a) && CreditBound(db, a) {
      NothingActive(db.holds, a);
    }
  }

  lemma InitialRecords()
    ensures var db := Initial();
      && ReservesRebuild(db) && PayablesRebuild(db) && HoldEvents(db)
      && KeysUnique(db) && Lifecycle(db) && EntriesSound(db) && PostingsBalance(db) && TrialBalance(db)
  {
    var db := Initial();
    forall c | Supported(c) ensures Payable(c) in db.balances {
      assert Payable(c) in SYSTEM_IDS;
    }
  }

  lemma InitialInv()
    ensures Inv(Initial())
  {
    InitialTables();
    InitialConserved();
    InitialBooks();
    InitialRecords();
  }

  lemma InvTables(db: Db)
    requires Inv(db)
    ensures Tables(db) && Chart(db)
  {
  }

  lemma SpecHoldKeepsInv(db: Db, holdId: Uuid, a: Uuid, p: Uuid, amount: int, c: Currency, x: int)
    requires Inv(db) && !IsSystem(a)
    ensures var r := HoldSpec(db, holdId, a, p, amount, c, x);
      r.Ok? ==> Inv(r.value)
  {
    hide Inv;
    InvTables(db);
    if HoldSpec(db, holdId, a, p, amount, c, x).Ok? {
      HoldKeepsInv(db, holdId, a, p, amount, c, x);
    }
  }

  lemma SpecCaptureKeepsInv(db: Db, h: Uuid, amount: int, t: Uuid)
    requires Inv(db)
    ensures var r := CaptureSpec(db, h, amount, t);
      r.Ok? ==> Inv(r.value)
  {
    hide Inv;
    InvTables(db);
    if CaptureSpec(db, h, amount, t).Ok? {
      CaptureKeepsInv(db, h, amount, t);
    }
  }

  lemma SpecReleaseKeepsInv(db: Db, h: Uuid, reason: string)
    requires Inv(db)
    ensures var r := ReleaseSpec(db, h, reason);
      r.Ok? ==> Inv(r.value)
  {
    hide Inv;
    InvTables(db);
    if ReleaseSpec(db, h, reason).Ok? {
      ReleaseKeepsInv(db, h, reason);
    }
  }

  lemma SpecDepositKeepsInv(db: Db, a: Uuid, amount: int, c: Currency, key: Key, t: Uuid)
    requires Inv(db) && !IsSystem(a) && a in db.accounts && db.accounts[a].currency == c && key.WelcomeOf?
    ensures var r := DepositSpec(db, a, amount, c, key, t);
      r.Ok? ==> Inv(r.value)
  {
    hide Inv;
    InvTables(db);
    if DepositSpec(db, a, amount, c, key, t).Ok? {
      DepositKeepsInv(db, a, amount, c, key, t);
    }
  }

  lemma SystemAccountsExist(db: Db, a: Uuid)
    requires Chart(db) && a !in db.accounts
    ensures !IsSystem(a)
  {
  }

  lemma SpecProvisionKeepsInv(db: Db, a: Uuid, u: Uuid, seed: int, c: Currency, t: Uuid)
    requires Inv(db) && Supported(c)
    ensures var r := ProvisionSpec(db, a, u, seed, c, t);
      r.Ok? ==> Inv(r.value)
  {
    hide Inv, Chart;
    InvTables(db);
    if a !in db.accounts {
      SystemAccountsExist(db, a);
      OpenKeepsInv(db, a, u, c);
      SpecDepositKeepsInv(OpenEffect(db, a, u, c), a, seed, c, WelcomeOf(u), t);
    }
  }

  lemma {:induction false} SpecSweepKeepsInv(db: Db, ids: seq<Uuid>, n: nat, reason: string)
    requires Inv(db) && n <= |ids|
    ensures var r := ReleaseFirst(db, ids, n, reason);
      r.Ok? ==> Inv(r.value)
  {
    hide Inv;
    InvTables(db);
    if n > 0 {
      SpecSweepKeepsInv(db, ids, n - 1, reason);
      var before := ReleaseFirst(db, ids, n - 1, reason);
      if before.Ok? {
        SpecReleaseKeepsInv(before.value, ids[n - 1], reason);
      }
    }
  }

  lemma MoneyKeepsInv(db: Db, body: Body, inp: Inputs)
    requires Inv(db) && Admissible(body)
    ensures var r := Money(db, body, inp);
      r.Ok? ==> Inv(r.value)
  {
    hide Inv;
    InvTables(db);
    match body
    case HoldRpc(_, a, p, amount, c, ttl) => SpecHoldKeepsInv(db, inp.holdId, a, p, amount, c, inp.now + ttl);
    case CaptureRpc(_, h, amount) => SpecCaptureKeepsInv(db, h, amount, inp.txnId);
    case ReleaseRpc(_, h, reason) => SpecReleaseKeepsInv(db, h, reason);
    case UserRegistered(_, u, seed, c) =>
      if u.Some? {
        SpecProvisionKeepsInv(db, inp.accountId, u.value, seed, c, inp.txnId);
      }
    case PaymentFailed(_, p) =>
      if p.Some? && ActiveFor(db, p.value).Some? {
        SpecReleaseKeepsInv(db, ActiveFor(db, p.value).value, "compensation");
      }
    case OtherEvent(_) =>
    case SweepExpired => SpecSweepKeepsInv(db, inp.selection, |inp.selection|, "expiry");
  }

  ghost predicate SameMoney(db: Db, after: Db) {
    && after.accounts == db.accounts && after.balances == db.balances && after.holds == db.holds
    && after.transactions == db.transactions && after.entries == db.entries && after.outbox == db.outbox
  }

  lemma SameKeepsMoney(db: Db, after: Db)
    requires SameMoney(db, after)
    requires Tables(db) && Ranges(db) && Chart(db) && HoldsSound(db) && OnePerPayment(db) && Conserved(db)
    ensures Tables(after) && Ranges(after) && Chart(after) && HoldsSound(after) && OnePerPayment(after)
    ensures Conserved(after)
  {
    forall c ensures ConservedIn(after, c) {
      assert ConservedIn(db, c);
    }
    forall h | h in after.holds ensures HoldSound(after, after.holds[h]) {
      assert HoldSound(db, db.holds[h]);
    }
  }

  lemma SameKeepsBooks(db: Db, after: Db)
    requires SameMoney(db, after) && Books(db) && CreditBounds(db)
    ensures Books(after) && CreditBounds(after)
  {
    forall a | a in after.accounts ensures Agrees(after, a) && CreditBound(after, a) {
      assert Agrees(db, a) && CreditBound(db, a);
    }
  }

  lemma SameKeepsRecords(db: Db, after: Db)
    requires SameMoney(db, after)
    requires ReservesRebuild(db) && PayablesRebuild(db) && HoldEvents(db)
    requires KeysUnique(db) && Lifecycle(db) && EntriesSound(db) && PostingsBalance(db) && TrialBalance(db)
    ensures ReservesRebuild(after) && PayablesRebuild(after) && HoldEvents(after)
    ensures KeysUnique(after) && Lifecycle(after) && EntriesSound(after) && PostingsBalance(after)
    ensures TrialBalance(after)
  {
    forall h ensures EventsOfHold(after, h) {
      assert EventsOfHold(db, h);
    }
    forall t, h | t in after.transactions && after.transactions[t].key == Some(CaptureOf(h))
      ensures CapturedBy(after, h, t)
    {
      assert CapturedBy(db, h, t);
    }
    forall e | e in after.entries ensures EntrySound(after, e) {
      assert EntrySound(db, e);
    }
  }

  /** The idempotency tables play no part in the money invariant. */
  lemma SameKeepsInv(db: Db, after: Db)
    requires Inv(db) && SameMoney(db, after)
    ensures Inv(after)
  {
    SameKeepsMoney(db, after);
    SameKeepsBooks(db, after);
    SameKeepsRecords(db, after);
  }

  lemma StepKeepsInv(db: Db, a: Attempt)
    requires Inv(db) && Admissible(a.body)
    ensures Inv(Step(db, a))
  {
    hide Inv;
    InvTables(db);
    var gated := Gate(db, a.body);
    SameKeepsInv(db, gated);
    InvTables(gated);
    MoneyKeepsInv(gated, a.body, a.inp);
    var after := Money(gated, a.body, a.inp);
    if after.Ok? {
      SameKeepsInv(after.value, Record(after.value, a.body, ReplyOf(a.body, a.inp, after.value)));
    }
  }

  lemma {:induction false} RunKeepsInv(db: Db, run: seq<Attempt>)
    requires Inv(db) && AdmissibleRun(run)
    ensures Inv(Run(db, run))
  {
    hide Inv;
    if run != [] {
      RunKeepsInv(db, run[..|run| - 1]);
      StepKeepsInv(Run(db, run[..|run| - 1]), run[|run| - 1]);
    }
  }

  lemma ReachableInv(db: Db)
    requires Reachable(db)
    ensures Inv(db)
  {
    hide Inv;
    var run :| AdmissibleRun(run) && db == Run(Initial(), run);
    InitialInv();
    RunKeepsInv(Initial(), run);
  }
}
