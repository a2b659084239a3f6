/** What every committed state of the ledger satisfies. */
module Invariants {
  import opened Int64
  import opened Schema
  import opened Sums
  import opened Effects
  import Validate

  // Quantities derived from first principles

  ghost function Open(h: Hold, a: Uuid): int {
    if h.status.Active? && h.accountId == a then h.amount else 0
  }

  ghost function OpenAmounts(hs: map<Uuid, Hold>, a: Uuid): map<Uuid, int> {
    map h | h in hs :: Open(hs[h], a)
  }

  /** The sum of the active holds of account a. */
  ghost function ActiveSum(hs: map<Uuid, Hold>, a: Uuid): int {
    Total(OpenAmounts(hs, a))
  }

  ghost function LegSide(e: Entry, a: Uuid, d: Direction): int {
    if e.leg.accountId == a && e.leg.direction == d then e.leg.amount else 0
  }

  ghost function Debits(es: seq<Entry>, a: Uuid): int {
    SumBy(es, (e: Entry) => LegSide(e, a, Debit))
  }

  ghost function Credits(es: seq<Entry>, a: Uuid): int {
    SumBy(es, (e: Entry) => LegSide(e, a, Credit))
  }

  ghost function CurrencySide(e: Entry, c: Currency, d: Direction): int {
    if e.leg.currency == c && e.leg.direction == d then e.leg.amount else 0
  }

  ghost function AllDebits(es: seq<Entry>, c: Currency): int {
    SumBy(es, (e: Entry) => CurrencySide(e, c, Debit))
  }

  ghost function AllCredits(es: seq<Entry>, c: Currency): int {
    SumBy(es, (e: Entry) => CurrencySide(e, c, Credit))
  }

  /** The legs of one ledger transaction, in insertion order. */
  ghost function LegsOf(es: seq<Entry>, t: Uuid): seq<Leg> {
    if es == [] then []
    else LegsOf(es[..|es| - 1], t) + (if es[|es| - 1].transactionId == t then [es[|es| - 1].leg] else [])
  }

  ghost function Share(accounts: map<Uuid, Account>, a: Uuid, b: Balance, c: Currency): int {
    if a in accounts && accounts[a].kind.Liability? && accounts[a].currency == c then b.available + b.held else 0
  }

  ghost function Shares(accounts: map<Uuid, Account>, bs: map<Uuid, Balance>, c: Currency): map<Uuid, int> {
    map a | a in bs :: Share(accounts, a, bs[a], c)
  }

  /** available + held over all liability accounts in currency c. */
  ghost function Liabilities(accounts: map<Uuid, Account>, bs: map<Uuid, Balance>, c: Currency): int {
    Total(Shares(accounts, bs, c))
  }

  ghost function Effect(e: Event): int {
    if e.detail.FundsHeld? then e.amount else -e.amount
  }

  /** Held-event amounts minus captured- and released-event amounts of account a. */
  ghost function Reserved(es: seq<Event>, a: Uuid): int {
    SumBy(es, (e: Event) => if e.accountId == a then Effect(e) else 0)
  }

  ghost function CapturedIn(es: seq<Event>, c: Currency): int {
    SumBy(es, (e: Event) => if e.currency == c && e.detail.FundsCaptured? then e.amount else 0)
  }

  ghost function HeldFor(es: seq<Event>, h: Uuid): int {
    SumBy(es, (e: Event) => if e.holdId == h && e.detail.FundsHeld? then e.amount else 0)
  }

  ghost function CapturedFor(es: seq<Event>, h: Uuid): int {
    SumBy(es, (e: Event) => if e.holdId == h && e.detail.FundsCaptured? then e.amount else 0)
  }

  ghost function ReleasedFor(es: seq<Event>, h: Uuid): int {
    SumBy(es, (e: Event) => if e.holdId == h && e.detail.FundsReleased? then e.amount else 0)
  }

  // The invariant, part by part

  ghost predicate Ranges(db: Db) {
    && (forall a :: a in db.balances ==> 0 <= db.balances[a].available <= MAX && 0 <= db.balances[a].held <= MAX)
    && forall h :: h in db.holds ==> db.holds[h].amount <= MAX
  }

  /** Settlement accounts are the only assets; every other account is a liability in a supported currency. */
  ghost predicate ChartEntry(a: Uuid, acct: Account) {
    && Supported(acct.currency)
    && (IsSystem(a) ==> acct.currency == SystemCurrency(a))
    && acct.kind == if IsSettlement(a) then Asset else Liability
  }

  ghost predicate Chart(db: Db) {
    && (forall a :: IsSystem(a) ==> a in db.accounts)
    && forall a :: a in db.accounts ==> ChartEntry(a, db.accounts[a])
  }

  ghost predicate HoldSound(db: Db, h: Hold) {
    && 0 < h.amount
    && !IsSystem(h.accountId)
    && h.accountId in db.accounts
    && h.currency == db.accounts[h.accountId].currency
  }

  ghost predicate HoldsSound(db: Db) {
    forall h :: h in db.holds ==> HoldSound(db, db.holds[h])
  }

  ghost predicate OnePerPayment(db: Db) {
    forall g, h | g in db.holds && h in db.holds && db.holds[g].status.Active? && db.holds[h].status.Active?
    :: db.holds[g].paymentId == db.holds[h].paymentId ==> g == h
  }

  ghost predicate ConservedIn(db: Db, c: Currency) {
    Supported(c) ==>
      Settlement(c) in db.balances && db.balances[Settlement(c)].available == Liabilities(db.accounts, db.balances, c)
  }

  /** Per currency, the settlement asset equals everything owed to users and merchants. */
  ghost predicate Conserved(db: Db) {
    forall c :: ConservedIn(db, c)
  }

  /** The available balance that the entries and the active holds justify. */
  ghost function Expected(db: Db, a: Uuid): int
    requires a in db.accounts
  {
    if db.accounts[a].kind.Asset? || db.accounts[a].kind.Expense?
    then Debits(db.entries, a) - Credits(db.entries, a)
    else Credits(db.entries, a) - Debits(db.entries, a) - ActiveSum(db.holds, a)
  }

  ghost predicate Agrees(db: Db, a: Uuid)
    requires a in db.accounts
  {
    && a in db.balances
    && db.balances[a].held == ActiveSum(db.holds, a)
    && db.balances[a].available == Expected(db, a)
  }

  ghost predicate Books(db: Db) {
    forall a :: a in db.accounts ==> Agrees(db, a)
  }

  ghost predicate CreditBound(db: Db, a: Uuid)
    requires a in db.accounts
  {
    if IsSettlement(a) then Credits(db.entries, a) == 0
    else if IsPayable(a) then Debits(db.entries, a) == 0
    else
      && Supported(db.accounts[a].currency)
      && Settlement(db.accounts[a].currency) in db.balances
      && 0 <= Debits(db.entries, a)
      && Credits(db.entries, a) <= db.balances[Settlement(db.accounts[a].currency)].available
  }

  /** Nobody has ever been credited more than was deposited. */
  ghost predicate CreditBounds(db: Db) {
    forall a :: a in db.accounts ==> CreditBound(db, a)
  }

  ghost predicate ReservesRebuild(db: Db) {
    && (forall a :: a in db.accounts ==> a in db.balances && db.balances[a].held == Reserved(db.outbox, a))
    && (forall e :: e in db.outbox ==> e.accountId in db.accounts)
  }

  ghost predicate PayablesRebuild(db: Db) {
    forall c :: Supported(c) ==>
      Payable(c) in db.balances && db.balances[Payable(c)].available == CapturedIn(db.outbox, c)
  }

  ghost predicate EventsOfHold(db: Db, h: Uuid) {
    if h !in db.holds then HeldFor(db.outbox, h) == CapturedFor(db.outbox, h) == ReleasedFor(db.outbox, h) == 0
    else
      && HeldFor(db.outbox, h) == db.holds[h].amount
      && match db.holds[h].status
         case Active => CapturedFor(db.outbox, h) == ReleasedFor(db.outbox, h) == 0
         case Captured =>
           && CapturedFor(db.outbox, h) + ReleasedFor(db.outbox, h) == db.holds[h].amount
           && 0 < CapturedFor(db.outbox, h)
         case _ => CapturedFor(db.outbox, h) == 0 && ReleasedFor(db.outbox, h) == db.holds[h].amount
  }

  ghost predicate HoldEvents(db: Db) {
    forall h :: EventsOfHold(db, h)
  }

  /** Transaction t is the capture of hold h: two equal legs, from the user to the merchant. */
  ghost predicate CapturedBy(db: Db, h: Uuid, t: Uuid) {
    && h in db.holds && db.holds[h].status.Captured? && Supported(db.holds[h].currency)
    && var legs := LegsOf(db.entries, t);
       |legs| == 2 && 0 < legs[0].amount <= db.holds[h].amount && legs == CaptureLegs(db.holds[h], legs[0].amount)
  }

  ghost predicate KeysUnique(db: Db) {
    forall t, u | t in db.transactions && u in db.transactions && db.transactions[t].key.Some?
    :: db.transactions[t].key == db.transactions[u].key ==> t == u
  }

  /** A hold is captured iff one ledger transaction carries its capture key. */
  ghost predicate Lifecycle(db: Db) {
    && (forall t, h :: t in db.transactions && db.transactions[t].key == Some(CaptureOf(h)) ==> CapturedBy(db, h, t))
    && (forall h :: h in db.holds && db.holds[h].status.Captured? ==> KeyUsed(db.transactions, CaptureOf(h)))
  }

  ghost predicate EntrySound(db: Db, e: Entry) {
    && e.transactionId in db.transactions
    && 0 < e.leg.amount
    && !e.leg.direction.OtherDirection?
    && e.leg.accountId in db.accounts && e.leg.currency == db.accounts[e.leg.accountId].currency
  }

  ghost predicate EntriesSound(db: Db) {
    forall e :: e in db.entries ==> EntrySound(db, e)
  }

  ghost predicate PostingsBalance(db: Db) {
    forall t :: t in db.transactions ==> Validate.Exact(LegsOf(db.entries, t))
  }

  ghost predicate TrialBalance(db: Db) {
    forall c :: AllDebits(db.entries, c) == AllCredits(db.entries, c)
  }

  ghost predicate Inv(db: Db) {
    && Tables(db) && Ranges(db) && Chart(db) && HoldsSound(db) && OnePerPayment(db)
    && Conserved(db) && Books(db) && CreditBounds(db)
    && ReservesRebuild(db) && PayablesRebuild(db) && HoldEvents(db)
    && KeysUnique(db) && Lifecycle(db) && EntriesSound(db) && PostingsBalance(db) && TrialBalance(db)
  }
}
