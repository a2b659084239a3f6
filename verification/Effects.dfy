/**
 * The atomic meaning of each ledger operation: when it succeeds, the state it commits, and the error
 * it reports otherwise. The statement-by-statement programs in Operations are proved against these.
 */
module Effects {
  import opened Int64
  import opened Schema
  import opened Sequences

  /** Every account has exactly one balance row, and holds refer to accounts. */
  ghost predicate Tables(db: Db) {
    && db.balances.Keys == db.accounts.Keys
    && forall h :: h in db.holds ==> db.holds[h].accountId in db.accounts
  }

  function Bump(bs: map<Uuid, Balance>, a: Uuid, dAvailable: int, dHeld: int): map<Uuid, Balance>
    requires a in bs
  {
    bs[a := Balance(bs[a].available + dAvailable, bs[a].held + dHeld, bs[a].version + 1)]
  }

  /** The new row passes the CHECKs and stays within bigint. */
  predicate BumpFits(bs: map<Uuid, Balance>, a: Uuid, dAvailable: int, dHeld: int) {
    && a in bs
    && 0 <= bs[a].available + dAvailable <= MAX
    && 0 <= bs[a].held + dHeld <= MAX
  }

  predicate HasActive(hs: map<Uuid, Hold>, paymentId: Uuid) {
    exists h :: h in hs && hs[h].status.Active? && hs[h].paymentId == paymentId
  }

  predicate KeyUsed(ts: map<Uuid, Transaction>, key: Key) {
    exists t :: t in ts && ts[t].key == Some(key)
  }

  // Hold

  ghost predicate HoldStorable(db: Db, holdId: Uuid, accountId: Uuid, paymentId: Uuid, amount: int) {
    && holdId !in db.holds
    && 0 < amount
    && !HasActive(db.holds, paymentId)
    && BumpFits(db.balances, accountId, -amount, amount)
  }

  function HoldEffect(db: Db, holdId: Uuid, accountId: Uuid, paymentId: Uuid, amount: int, currency: Currency,
                      expiresAt: int): Db
    requires accountId in db.balances
  {
    db.(holds := db.holds[holdId := Hold(accountId, paymentId, amount, currency, Active, expiresAt)],
        balances := Bump(db.balances, accountId, -amount, amount),
        outbox := db.outbox + [Event(holdId, accountId, amount, currency, FundsHeld(paymentId, expiresAt))])
  }

  ghost function HoldSpec(db: Db, holdId: Uuid, accountId: Uuid, paymentId: Uuid, amount: int, currency: Currency,
                          expiresAt: int): Result<Db>
    requires Tables(db)
  {
    if accountId !in db.balances then Err(NotFound)
    else if db.accounts[accountId].currency != currency then Err(CurrencyMismatch)
    else if db.balances[accountId].available < amount then Err(InsufficientFunds)
    else if !HoldStorable(db, holdId, accountId, paymentId, amount) then Err(Constraint)
    else Ok(HoldEffect(db, holdId, accountId, paymentId, amount, currency, expiresAt))
  }

  // Capture

  function CaptureLegs(h: Hold, amount: int): seq<Leg>
    requires Supported(h.currency)
  {
    [Leg(h.accountId, Debit, amount, h.currency), Leg(Payable(h.currency), Credit, amount, h.currency)]
  }

  function CaptureEvents(holdId: Uuid, h: Hold, txnId: Uuid, amount: int): seq<Event> {
    [Event(holdId, h.accountId, amount, h.currency, FundsCaptured(txnId))] +
    (if amount < h.amount
     then [Event(holdId, h.accountId, h.amount - amount, h.currency, FundsReleased("partial_capture_remainder"))]
     else [])
  }

  function Entries(txnId: Uuid, legs: seq<Leg>): seq<Entry> {
    seq(|legs|, i requires 0 <= i < |legs| => Entry(txnId, legs[i]))
  }

  ghost predicate CaptureStorable(db: Db, holdId: Uuid, amount: int, txnId: Uuid)
    requires holdId in db.holds && Supported(db.holds[holdId].currency)
  {
    var h := db.holds[holdId];
    var payable := Payable(h.currency);
    && txnId !in db.transactions
    && !KeyUsed(db.transactions, CaptureOf(holdId))
    && h.accountId in db.accounts && payable in db.accounts
    && BumpFits(db.balances, h.accountId, h.amount - amount, -h.amount)
    && BumpFits(Bump(db.balances, h.accountId, h.amount - amount, -h.amount), payable, amount, 0)
  }

  function CaptureEffect(db: Db, holdId: Uuid, amount: int, txnId: Uuid): Db
    requires holdId in db.holds && Supported(db.holds[holdId].currency)
    requires db.holds[holdId].accountId in db.balances && Payable(db.holds[holdId].currency) in db.balances
  {
    var h := db.holds[holdId];
    db.(transactions := db.transactions[txnId := Transaction(Some(CaptureOf(holdId)), CaptureKind, Some(h.paymentId))],
        entries := db.entries + Entries(txnId, CaptureLegs(h, amount)),
        balances := Bump(Bump(db.balances, h.accountId, h.amount - amount, -h.amount), Payable(h.currency), amount, 0),
        holds := db.holds[holdId := h.(status := Captured)],
        outbox := db.outbox + CaptureEvents(holdId, h, txnId, amount))
  }

  ghost function CaptureSpec(db: Db, holdId: Uuid, amount: int, txnId: Uuid): Result<Db>
    requires Tables(db)
  {
    if holdId !in db.holds then Err(NotFound)
    else if !db.holds[holdId].status.Active? then Err(HoldNotActive)
    else if amount <= 0 || db.holds[holdId].amount < amount then Err(AmountExceedsHold)
    else if !Supported(db.holds[holdId].currency) then Err(NoSystemAccount)
    else if !CaptureStorable(db, holdId, amount, txnId) then Err(Constraint)
    else Ok(CaptureEffect(db, holdId, amount, txnId))
  }

  // Release

  function ReleasedStatus(reason: string): HoldStatus {
    if reason == "expiry" then Expired else Released
  }

  function ReleaseEffect(db: Db, holdId: Uuid, reason: string): Db
    requires holdId in db.holds && db.holds[holdId].accountId in db.balances
  {
    var h := db.holds[holdId];
    db.(balances := Bump(db.balances, h.accountId, h.amount, -h.amount),
        holds := db.holds[holdId := h.(status := ReleasedStatus(reason))],
        outbox := db.outbox + [Event(holdId, h.accountId, h.amount, h.currency, FundsReleased(reason))])
  }

  ghost function ReleaseSpec(db: Db, holdId: Uuid, reason: string): Result<Db>
    requires Tables(db)
  {
    if holdId !in db.holds then Err(NotFound)
    else if !db.holds[holdId].status.Active? then Err(HoldNotActive)
    else if !BumpFits(db.balances, db.holds[holdId].accountId, db.holds[holdId].amount, -db.holds[holdId].amount)
    then Err(Constraint)
    else Ok(ReleaseEffect(db, holdId, reason))
  }

  ghost predicate IsActiveFor(db: Db, paymentId: Uuid, h: Uuid) {
    h in db.holds && db.holds[h].status.Active? && db.holds[h].paymentId == paymentId
  }

  /** The hold that ReleaseByPayment finds: unique wherever the partial unique index holds. */
  ghost function ActiveFor(db: Db, paymentId: Uuid): Option<Uuid> {
    if exists h: Uuid :: IsActiveFor(db, paymentId, h) then
      var h: Uuid :| IsActiveFor(db, paymentId, h);
      Some(h)
    else None
  }

  ghost function ReleaseByPaymentSpec(db: Db, paymentId: Uuid, reason: string): Result<Db>
    requires Tables(db)
  {
    match ActiveFor(db, paymentId)
    case None => Ok(db)
    case Some(h) => ReleaseSpec(db, h, reason)
  }

  // Deposit and provisioning

  function DepositLegs(accountId: Uuid, amount: int, currency: Currency): seq<Leg>
    requires Supported(currency)
  {
    [Leg(Settlement(currency), Debit, amount, currency), Leg(accountId, Credit, amount, currency)]
  }

  ghost predicate DepositStorable(db: Db, accountId: Uuid, amount: int, currency: Currency, key: Key, txnId: Uuid)
    requires Supported(currency)
  {
    && txnId !in db.transactions
    && !KeyUsed(db.transactions, key)
    && Settlement(currency) in db.accounts && accountId in db.accounts
    && BumpFits(db.balances, Settlement(currency), amount, 0)
    && BumpFits(Bump(db.balances, Settlement(currency), amount, 0), accountId, amount, 0)
  }

  function DepositEffect(db: Db, accountId: Uuid, amount: int, currency: Currency, key: Key, txnId: Uuid): Db
    requires Supported(currency) && Settlement(currency) in db.balances && accountId in db.balances
  {
    db.(transactions := db.transactions[txnId := Transaction(Some(key), DepositKind, None)],
        entries := db.entries + Entries(txnId, DepositLegs(accountId, amount, currency)),
        balances := Bump(Bump(db.balances, Settlement(currency), amount, 0), accountId, amount, 0))
  }

  ghost function DepositSpec(db: Db, accountId: Uuid, amount: int, currency: Currency, key: Key,
                             txnId: Uuid): Result<Db>
    requires Tables(db)
  {
    if !Supported(currency) then Err(NoSystemAccount)
    else if amount <= 0 then Err(BadPosting)
    else if !DepositStorable(db, accountId, amount, currency, key, txnId) then Err(Constraint)
    else Ok(DepositEffect(db, accountId, amount, currency, key, txnId))
  }

  function OpenEffect(db: Db, accountId: Uuid, userId: Uuid, currency: Currency): Db {
    db.(accounts := db.accounts[accountId := Account(userId, currency, Liability)],
        balances := db.balances[accountId := Balance(0, 0, 0)])
  }

  /** onUserRegistered: open a liability account and, with a positive seed, make the welcome deposit. */
  ghost function ProvisionSpec(db: Db, accountId: Uuid, userId: Uuid, seed: int, currency: Currency,
                               txnId: Uuid): Result<Db>
    requires Tables(db)
  {
    if accountId in db.accounts then Err(Constraint)
    else
      var withAccount := OpenEffect(db, accountId, userId, currency);
      if seed > 0 then DepositSpec(withAccount, accountId, seed, currency, WelcomeOf(userId), txnId)
      else Ok(withAccount)
  }

  // Sweep

  const SWEEP_LIMIT: nat := 100

  ghost predicate Expirable(db: Db, now: int, h: Uuid) {
    h in db.holds && db.holds[h].status.Active? && db.holds[h].expiresAt < now
  }

  /** What `for update skip locked limit 100` may return: any distinct expired active holds. */
  ghost predicate Selection(db: Db, now: int, ids: seq<Uuid>) {
    && |ids| <= SWEEP_LIMIT
    && Distinct(ids)
    && forall i :: 0 <= i < |ids| ==> Expirable(db, now, ids[i])
  }

  /** What the query returns where others have locked some rows: a hundred unlocked overdue holds, or all of them. */
  ghost predicate Picks(db: Db, now: int, locked: set<Uuid>, ids: seq<Uuid>) {
    && Selection(db, now, ids) && (forall h :: h in ids ==> h !in locked)
    && (|ids| == SWEEP_LIMIT || forall h :: Expirable(db, now, h) && h !in locked ==> h in ids)
  }

  /** A sweep that skips no locked row takes a hundred overdue holds, or all of them. */
  ghost predicate FullSweep(db: Db, now: int, ids: seq<Uuid>) {
    && Selection(db, now, ids)
    && (|ids| == SWEEP_LIMIT || forall h :: Expirable(db, now, h) ==> h in ids)
  }

  /** Releasing the first n of the given holds, one after the other. */
  ghost function ReleaseFirst(db: Db, ids: seq<Uuid>, n: nat, reason: string): (r: Result<Db>)
    requires Tables(db) && n <= |ids|
    ensures r.Ok? ==> Tables(r.value)
  {
    if n == 0 then Ok(db)
    else
      var before := ReleaseFirst(db, ids, n - 1, reason);
      if before.Err? then before else ReleaseSpec(before.value, ids[n - 1], reason)
  }

  ghost function SweepSpec(db: Db, ids: seq<Uuid>): Result<Db>
    requires Tables(db)
  {
    ReleaseFirst(db, ids, |ids|, "expiry")
  }
}
