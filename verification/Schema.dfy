/** The tables of migrations/00001_initial.sql as one value, and the error vocabulary of the service. */
module Schema {
  datatype Option<+T> = None | Some(value: T)

  /** A uuid as its 128-bit value. */
  type Uuid = nat

  datatype Currency = USD | EUR | GBP | JPY | Other(code: string)

  datatype AccountType = Asset | Liability | Revenue | Expense | Equity

  datatype Account = Account(userId: Uuid, currency: Currency, kind: AccountType)

  datatype Balance = Balance(available: int, held: int, version: int)

  datatype HoldStatus = Active | Captured | Released | Expired

  datatype Hold = Hold(accountId: Uuid, paymentId: Uuid, amount: int, currency: Currency,
                       status: HoldStatus, expiresAt: int)

  datatype Direction = Debit | Credit | OtherDirection(text: string)

  /** One leg of a posting. */
  datatype Leg = Leg(accountId: Uuid, direction: Direction, amount: int, currency: Currency)

  /** A row of ledger_entries; rows are kept in the order of their identity column. */
  datatype Entry = Entry(transactionId: Uuid, leg: Leg)

  /** Idempotency keys: the texts "capture:<hold id>" and "welcome:<user id>". */
  datatype Key = CaptureOf(holdId: Uuid) | WelcomeOf(userId: Uuid)

  datatype Kind = DepositKind | CaptureKind

  datatype Transaction = Transaction(key: Option<Key>, kind: Kind, paymentId: Option<Uuid>)

  /** What distinguishes the payloads of the three outbox topics. */
  datatype Detail =
    | FundsHeld(paymentId: Uuid, expiresAt: int)
    | FundsCaptured(transactionId: Uuid)
    | FundsReleased(reason: string)

  datatype Event = Event(holdId: Uuid, accountId: Uuid, amount: int, currency: Currency, detail: Detail)

  datatype Reply =
    | HoldReply(holdId: Uuid, availableAfter: int, currency: Currency)
    | CaptureReply(transactionId: Uuid)
    | ReleaseReply
    | SweepReply(released: nat)
    | NoReply
    | OpaqueReply(text: string)

  datatype RpcMethod = HoldFunds | CaptureFunds | ReleaseFunds

  /** A row of grpc_idempotency, without its key. */
  datatype Stored = Stored(rpc: RpcMethod, reply: Reply)

  datatype Db = Db(
    accounts: map<Uuid, Account>,
    balances: map<Uuid, Balance>,
    transactions: map<Uuid, Transaction>,
    entries: seq<Entry>,
    holds: map<Uuid, Hold>,
    outbox: seq<Event>,
    responses: map<string, Stored>,
    processed: set<Uuid>)

  /** Constraint is any violated CHECK, unique index, foreign key or bigint range. */
  datatype Error =
    | NotFound
    | CurrencyMismatch
    | InsufficientFunds
    | HoldNotActive
    | AmountExceedsHold
    | NoSystemAccount
    | BadPosting
    | BadPayload
    | BadSelection
    | Constraint
    | Serialization
    | ConnectionLost
    | TransactionAborted
    | RetriesExhausted
    | InvalidArgument
    | Undecodable
  {
    /** Codes 40001 and 40P01: the only failures that InTx retries. */
    predicate Retryable() {
      Serialization?
    }

    /** Failures of the infrastructure rather than of the operation. */
    predicate Transient() {
      Serialization? || ConnectionLost? || TransactionAborted?
    }
  }

  /** The outcome of one SQL statement that returns no row. */
  datatype Status = Pass | Fail(error: Error) {
    /** The failure of the infrastructure that is reported, if any. */
    function Fault(): Option<Error> {
      if Fail? && error.Transient() then Some(error) else None
    }

    predicate IsFailure() {
      Fail?
    }

    function PropagateFailure<U>(): Result<U>
      requires Fail?
    {
      Err(error)
    }
  }

  datatype Result<+T> = Ok(value: T) | Err(error: Error) {
    /** The failure of the infrastructure that is reported, if any. */
    function Fault(): Option<Error> {
      if Err? && error.Transient() then Some(error) else None
    }

    predicate IsFailure() {
      Err?
    }

    function PropagateFailure<U>(): Result<U>
      requires Err?
    {
      Err(error)
    }

    function Extract(): T
      requires Ok?
    {
      value
    }
  }

  predicate Supported(c: Currency) {
    !c.Other?
  }

  /** The fixed account ids of the migration, one settlement and one merchant account a currency. */
  function Settlement(c: Currency): Uuid
    requires Supported(c)
  {
    match c
    case USD => 0xc001
    case EUR => 0xc002
    case GBP => 0xc003
    case JPY => 0xc004
  }

  function Payable(c: Currency): Uuid
    requires Supported(c)
  {
    match c
    case USD => 0xd001
    case EUR => 0xd002
    case GBP => 0xd003
    case JPY => 0xd004
  }

  predicate IsSettlement(a: Uuid) {
    0xc001 <= a <= 0xc004
  }

  predicate IsPayable(a: Uuid) {
    0xd001 <= a <= 0xd004
  }

  predicate IsSystem(a: Uuid) {
    IsSettlement(a) || IsPayable(a)
  }

  const SYSTEM_IDS: set<Uuid> := {0xc001, 0xc002, 0xc003, 0xc004, 0xd001, 0xd002, 0xd003, 0xd004}

  function SystemCurrency(a: Uuid): (c: Currency)
    requires IsSystem(a)
    ensures Supported(c)
    ensures IsSettlement(a) ==> Settlement(c) == a
    ensures IsPayable(a) ==> Payable(c) == a
  {
    match a % 0x10
    case 1 => USD
    case 2 => EUR
    case 3 => GBP
    case _ => JPY
  }

  /** The state right after the migration: the system accounts, all balances zero. */
  function Initial(): Db {
    Db(map a | a in SYSTEM_IDS :: Account(0, SystemCurrency(a), if IsSettlement(a) then Asset else Liability),
       map a | a in SYSTEM_IDS :: Balance(0, 0, 0),
       map[], [], map[], [], map[], {})
  }
}
