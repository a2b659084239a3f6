/**
 * What a request is for, row by row: the tables before and after it, in the terms of the request alone.
 * The atomic meanings of Effects and Machine are proved to be this.
 */
module Requests {
  import opened Schema
  import opened Effects
  import opened Invariants
  import opened Machine
  import opened Safety
  import opened Sweep
  import NoStuck
  import Guarantees

  /** The balance row of account a moved by the given amounts, and was written once. */
  ghost predicate Moved(before: Db, after: Db, a: Uuid, dAvailable: int, dHeld: int) {
    && a in before.balances && a in after.balances
    && after.balances[a].available == before.balances[a].available + dAvailable
    && after.balances[a].held == before.balances[a].held + dHeld
    && after.balances[a].version == before.balances[a].version + 1
  }

  ghost predicate OthersUnmoved(before: Db, after: Db, moved: set<Uuid>) {
    forall a :: a !in moved ==>
      && (a in after.balances <==> a in before.balances)
      && (a in before.balances ==> after.balances[a] == before.balances[a])
  }

  ghost predicate SameLedger(before: Db, after: Db) {
    after.accounts == before.accounts && after.transactions == before.transactions && after.entries == before.entries
  }

  // Holds

  /** The amount moved from available to held, the hold is on record, and it is announced. */
  ghost predicate HoldPlaced(before: Db, after: Db, holdId: Uuid, a: Uuid, payment: Uuid, amount: int, c: Currency,
                             expiresAt: int) {
    && holdId !in before.holds && after.holds == before.holds[holdId := Hold(a, payment, amount, c, Active, expiresAt)]
    && a in before.accounts && before.accounts[a].currency == c
    && a in before.balances && 0 < amount <= before.balances[a].available
    && (forall h :: h in before.holds && before.holds[h].status.Active? ==> before.holds[h].paymentId != payment)
    && Moved(before, after, a, -amount, amount) && OthersUnmoved(before, after, {a}) && SameLedger(before, after)
    && after.outbox == before.outbox + [Event(holdId, a, amount, c, FundsHeld(payment, expiresAt))]
  }

  /** Why a hold is refused, in the order of the checks. */
  ghost predicate HoldRefused(db: Db, holdId: Uuid, a: Uuid, payment: Uuid, amount: int, c: Currency, e: Error) {
    match e
    case NotFound => a !in db.accounts
    case CurrencyMismatch => a in db.accounts && db.accounts[a].currency != c
    case InsufficientFunds =>
      a in db.accounts && db.accounts[a].currency == c && a in db.balances && db.balances[a].available < amount
    case Constraint =>
      && a in db.accounts && db.accounts[a].currency == c && a in db.balances && amount <= db.balances[a].available
      && (|| amount <= 0 || holdId in db.holds
          || exists h :: h in db.holds && db.holds[h].status.Active? && db.holds[h].paymentId == payment)
    case _ => false
  }

  lemma HoldEffectMeans(db: Db, holdId: Uuid, a: Uuid, payment: Uuid, amount: int, c: Currency, expiresAt: int)
    requires Tables(db) && HoldSpec(db, holdId, a, payment, amount, c, expiresAt).Ok?
    ensures var after := HoldSpec(db, holdId, a, payment, amount, c, expiresAt).value;
      && HoldPlaced(db, after, holdId, a, payment, amount, c, expiresAt)
      && after.responses == db.responses && after.processed == db.processed
  {
  }

  ghost predicate Holdable(db: Db, a: Uuid, payment: Uuid, amount: int, c: Currency)
    requires Tables(db)
  {
    && a in db.accounts && db.accounts[a].currency == c && 0 < amount <= db.balances[a].available
    && !HasActive(db.holds, payment)
  }

  lemma HoldRefusalMeans(db: Db, holdId: Uuid, a: Uuid, payment: Uuid, amount: int, c: Currency, expiresAt: int)
    requires Tables(db) && HoldSpec(db, holdId, a, payment, amount, c, expiresAt).Err?
    requires holdId in db.holds || !Holdable(db, a, payment, amount, c)
    ensures HoldRefused(db, holdId, a, payment, amount, c, HoldSpec(db, holdId, a, payment, amount, c, expiresAt).error)
  {
  }

  lemma HoldMeans(db: Db, holdId: Uuid, a: Uuid, payment: Uuid, amount: int, c: Currency, expiresAt: int)
    requires Inv(db)
    ensures Tables(db)
    ensures match HoldSpec(db, holdId, a, payment, amount, c, expiresAt)
            case Ok(after) =>
              && HoldPlaced(db, after, holdId, a, payment, amount, c, expiresAt)
              && after.responses == db.responses && after.processed == db.processed
            case Err(e) => HoldRefused(db, holdId, a, payment, amount, c, e)
  {
    hide Inv, HoldSpec, HoldPlaced, HoldRefused, HasActive;
    InvHolds(db);
    if HoldSpec(db, holdId, a, payment, amount, c, expiresAt).Ok? {
      HoldEffectMeans(db, holdId, a, payment, amount, c, expiresAt);
    } else {
      if holdId !in db.holds {
        NoStuck.HoldNeverSticks(db, holdId, a, payment, amount, c, expiresAt);
      }
      HoldRefusalMeans(db, holdId, a, payment, amount, c, expiresAt);
    }
  }

  // Captures

  ghost function CaptureAnnouncements(h: Uuid, row: Hold, amount: int, t: Uuid): seq<Event> {
    if amount == row.amount then [Event(h, row.accountId, amount, row.currency, FundsCaptured(t))]
    else [Event(h, row.accountId, amount, row.currency, FundsCaptured(t)),
          Event(h, row.accountId, row.amount - amount, row.currency, FundsReleased("partial_capture_remainder"))]
  }

  /**
   * Exactly the amount went from the hold's account to the merchant, as one posting under the hold's key; the
   * rest of the hold is available again; the hold has ended.
   */
  ghost predicate HoldCaptured(before: Db, after: Db, h: Uuid, amount: int, t: Uuid) {
    && h in before.holds && before.holds[h].status.Active? && 0 < amount <= before.holds[h].amount
    && var row := before.holds[h];
    && Supported(row.currency)
    && after.holds == before.holds[h := row.(status := Captured)]
    && t !in before.transactions
    && after.transactions == before.transactions[t := Transaction(Some(CaptureOf(h)), CaptureKind, Some(row.paymentId))]
    && after.entries == before.entries + [Entry(t, Leg(row.accountId, Debit, amount, row.currency)),
                                          Entry(t, Leg(Payable(row.currency), Credit, amount, row.currency))]
    && Moved(before, after, row.accountId, row.amount - amount, -row.amount)
    && Moved(before, after, Payable(row.currency), amount, 0)
    && OthersUnmoved(before, after, {row.accountId, Payable(row.currency)})
    && after.outbox == before.outbox + CaptureAnnouncements(h, row, amount, t)
    && after.accounts == before.accounts
  }

  ghost predicate CaptureRefused(db: Db, h: Uuid, amount: int, t: Uuid, e: Error) {
    match e
    case NotFound => h !in db.holds
    case HoldNotActive => h in db.holds && !db.holds[h].status.Active?
    case AmountExceedsHold =>
      h in db.holds && db.holds[h].status.Active? && (amount <= 0 || db.holds[h].amount < amount)
    case Constraint =>
      h in db.holds && db.holds[h].status.Active? && 0 < amount <= db.holds[h].amount && t in db.transactions
    case _ => false
  }

  lemma CaptureEffectMeans(db: Db, h: Uuid, amount: int, t: Uuid)
    requires Tables(db) && CaptureSpec(db, h, amount, t).Ok? && HoldSound(db, db.holds[h])
    ensures var after := CaptureSpec(db, h, amount, t).value;
      && HoldCaptured(db, after, h, amount, t)
      && after.responses == db.responses && after.processed == db.processed
  {
  }

  lemma CaptureRefusalMeans(db: Db, h: Uuid, amount: int, t: Uuid)
    requires Tables(db) && CaptureSpec(db, h, amount, t).Err? && (h in db.holds ==> Supported(db.holds[h].currency))
    requires t in db.transactions || !(h in db.holds && db.holds[h].status.Active? && 0 < amount <= db.holds[h].amount)
    ensures CaptureRefused(db, h, amount, t, CaptureSpec(db, h, amount, t).error)
  {
  }

  lemma InvHolds(db: Db)
    requires Inv(db)
    ensures Tables(db) && Ranges(db) && Chart(db) && HoldsSound(db) && Conserved(db) && Books(db) && Lifecycle(db)
  {
  }

  lemma CaptureMeans(db: Db, h: Uuid, amount: int, t: Uuid)
    requires Inv(db)
    ensures Tables(db)
    ensures match CaptureSpec(db, h, amount, t)
            case Ok(after) =>
              && HoldCaptured(db, after, h, amount, t)
              && after.responses == db.responses && after.processed == db.processed
            case Err(e) => CaptureRefused(db, h, amount, t, e)
  {
    hide Inv, CaptureSpec, HoldCaptured, CaptureRefused, Books, Lifecycle, Conserved, Chart, Ranges, HoldSound;
    InvHolds(db);
    if t !in db.transactions {
      NoStuck.CaptureNeverSticks(db, h, amount, t);
    }
    if h in db.holds {
      NoStuck.HoldCurrencySupported(db, h);
    }
    if CaptureSpec(db, h, amount, t).Ok? {
      CapturedExists(db, h, amount, t);
      CaptureEffectMeans(db, h, amount, t);
    } else {
      CaptureRefusalMeans(db, h, amount, t);
    }
  }

  lemma CapturedExists(db: Db, h: Uuid, amount: int, t: Uuid)
    requires Tables(db) && CaptureSpec(db, h, amount, t).Ok?
    ensures h in db.holds
  {
  }

  // Releases

  /** The hold's amount is available again, and the hold has ended: expired if that is the reason, else released. */
  ghost predicate HoldReleased(before: Db, after: Db, h: Uuid, reason: string) {
    && h in before.holds && before.holds[h].status.Active?
    && var row := before.holds[h];
    && after.holds == before.holds[h := row.(status := if reason == "expiry" then Expired else Released)]
    && Moved(before, after, row.accountId, row.amount, -row.amount) && OthersUnmoved(before, after, {row.accountId})
    && SameLedger(before, after)
    && after.outbox == before.outbox + [Event(h, row.accountId, row.amount, row.currency, FundsReleased(reason))]
  }

  ghost predicate ReleaseRefused(db: Db, h: Uuid, e: Error) {
    match e
    case NotFound => h !in db.holds
    case HoldNotActive => h in db.holds && !db.holds[h].status.Active?
    case _ => false
  }

  lemma ReleaseEffectMeans(db: Db, h: Uuid, reason: string)
    requires Tables(db) && ReleaseSpec(db, h, reason).Ok?
    ensures var after := ReleaseSpec(db, h, reason).value;
      HoldReleased(db, after, h, reason) && after.responses == db.responses && after.processed == db.processed
  {
  }

  lemma ReleaseRefusalMeans(db: Db, h: Uuid, reason: string)
    requires Tables(db) && ReleaseSpec(db, h, reason).Err? && !(h in db.holds && db.holds[h].status.Active?)
    ensures ReleaseRefused(db, h, ReleaseSpec(db, h, reason).error)
  {
  }

  lemma ReleaseMeans(db: Db, h: Uuid, reason: string)
    requires Inv(db)
    ensures Tables(db)
    ensures match ReleaseSpec(db, h, reason)
            case Ok(after) =>
              HoldReleased(db, after, h, reason) && after.responses == db.responses && after.processed == db.processed
            case Err(e) => ReleaseRefused(db, h, e)
  {
    hide Inv, ReleaseSpec, HoldReleased, ReleaseRefused;
    InvHolds(db);
    NoStuck.ReleaseNeverSticks(db, h, reason);
    if ReleaseSpec(db, h, reason).Ok? {
      ReleaseEffectMeans(db, h, reason);
    } else {
      ReleaseRefusalMeans(db, h, reason);
    }
  }

  // Answers to the calls of the money API

  /** The answer says nothing of the request: the infrastructure failed, or serialization did five times. */
  predicate Unsettled<T>(r: Result<T>) {
    r.Err? && (r.error.Transient() || r.error == RetriesExhausted)
  }

  /** A request id that has an answer already: it is repeated to the same method, and nothing happens. */
  ghost predicate Replayed(db: Db, requestId: string, rpc: RpcMethod, r: Result<Reply>)
    requires requestId in db.responses
  {
    if db.responses[requestId].rpc == rpc then r == Ok(db.responses[requestId].reply)
    else r.Ok? || r.error == Undecodable
  }

  ghost predicate Recorded(before: Db, after: Db, requestId: string, rpc: RpcMethod, reply: Reply) {
    after.responses == before.responses[requestId := Stored(rpc, reply)] && after.processed == before.processed
  }

  ghost predicate HoldAnswered(before: Db, after: Db, requestId: string, holdId: Uuid, a: Uuid, payment: Uuid,
                               amount: int, c: Currency, expiresAt: int, r: Result<Reply>) {
    if requestId in before.responses then after == before && Replayed(before, requestId, HoldFunds, r)
    else match r
         case Ok(reply) =>
           && HoldPlaced(before, after, holdId, a, payment, amount, c, expiresAt)
           && reply == HoldReply(holdId, after.balances[a].available, c)
           && Recorded(before, after, requestId, HoldFunds, reply)
         case Err(e) => after == before && HoldRefused(before, holdId, a, payment, amount, c, e)
  }

  ghost predicate CaptureAnswered(before: Db, after: Db, requestId: string, h: Uuid, amount: int, t: Uuid,
                                  r: Result<Reply>) {
    if requestId in before.responses then after == before && Replayed(before, requestId, CaptureFunds, r)
    else match r
         case Ok(reply) =>
           && HoldCaptured(before, after, h, amount, t) && reply == CaptureReply(t)
           && Recorded(before, after, requestId, CaptureFunds, reply)
         case Err(e) => after == before && CaptureRefused(before, h, amount, t, e)
  }

  ghost predicate ReleaseAnswered(before: Db, after: Db, requestId: string, h: Uuid, reason: string,
                                  r: Result<Reply>) {
    if requestId in before.responses then after == before && Replayed(before, requestId, ReleaseFunds, r)
    else match r
         case Ok(reply) =>
           && HoldReleased(before, after, h, reason) && reply == ReleaseReply
           && Recorded(before, after, requestId, ReleaseFunds, reply)
         case Err(e) => after == before && ReleaseRefused(before, h, e)
  }

  /** Perform as a state and an answer: what commits, or the state before with the error. */
  ghost function Committed(db: Db, body: Body, inp: Inputs): (Db, Result<Reply>) {
    match Perform(db, body, inp)
    case Ok(done) => (done.db, Ok(done.reply))
    case Err(e) => (db, Err(e))
  }

  lemma HoldRpcMeans(db: Db, requestId: string, a: Uuid, payment: Uuid, amount: int, c: Currency, ttl: int, inp: Inputs)
    requires Inv(db)
    ensures var (after, r) := Committed(db, HoldRpc(requestId, a, payment, amount, c, ttl), inp);
      HoldAnswered(db, after, requestId, inp.holdId, a, payment, amount, c, inp.now + ttl, r)
  {
    hide Inv, HoldSpec, HoldRefused;
    HoldMeans(db, inp.holdId, a, payment, amount, c, inp.now + ttl);
  }

  lemma CaptureRpcMeans(db: Db, requestId: string, h: Uuid, amount: int, inp: Inputs)
    requires Inv(db)
    ensures var (after, r) := Committed(db, CaptureRpc(requestId, h, amount), inp);
      CaptureAnswered(db, after, requestId, h, amount, inp.txnId, r)
  {
    hide Inv, CaptureSpec, CaptureRefused;
    CaptureMeans(db, h, amount, inp.txnId);
  }

  lemma ReleaseRpcMeans(db: Db, requestId: string, h: Uuid, reason: string, inp: Inputs)
    requires Inv(db)
    ensures var (after, r) := Committed(db, ReleaseRpc(requestId, h, reason), inp);
      ReleaseAnswered(db, after, requestId, h, reason, r)
  {
    hide Inv, ReleaseSpec, ReleaseRefused;
    ReleaseMeans(db, h, reason);
  }

  // Events

  /** A new account of the user, credited with the seed if that is positive, from the settlement account. */
  ghost predicate AccountOpened(before: Db, after: Db, a: Uuid, user: Uuid, seed: int, c: Currency, t: Uuid) {
    && a !in before.accounts && Supported(c) && a != Settlement(c)
    && after.accounts == before.accounts[a := Account(user, c, Liability)]
    && a in after.balances && after.balances[a].held == 0
    && after.balances[a].available == (if seed > 0 then seed else 0)
    && (if seed > 0
        then && Moved(before, after, Settlement(c), seed, 0) && OthersUnmoved(before, after, {a, Settlement(c)})
             && t !in before.transactions
             && after.transactions == before.transactions[t := Transaction(Some(WelcomeOf(user)), DepositKind, None)]
             && after.entries == before.entries + [Entry(t, Leg(Settlement(c), Debit, seed, c)),
                                                   Entry(t, Leg(a, Credit, seed, c))]
        else && OthersUnmoved(before, after, {a})
             && after.transactions == before.transactions && after.entries == before.entries)
    && after.holds == before.holds && after.outbox == before.outbox && after.responses == before.responses
  }

  /** The active hold of the payment, if there is one, is released; none is left. */
  ghost predicate PaymentCompensated(before: Db, after: Db, payment: Uuid) {
    && (forall h :: h in after.holds && after.holds[h].status.Active? ==> after.holds[h].paymentId != payment)
    && after.responses == before.responses
    && ((exists h :: HoldReleased(before, after, h, "compensation") && before.holds[h].paymentId == payment)
        || SameMoney(before, after))
  }

  lemma OpenedWithSeed(db: Db, a: Uuid, user: Uuid, seed: int, c: Currency, t: Uuid)
    requires Tables(db) && Chart(db) && ProvisionSpec(db, a, user, seed, c, t).Ok? && Supported(c)
    ensures AccountOpened(db, ProvisionSpec(db, a, user, seed, c, t).value, a, user, seed, c, t)
    ensures ProvisionSpec(db, a, user, seed, c, t).value.processed == db.processed
  {
    assert IsSystem(Settlement(c));
  }

  lemma CompensationMeans(db: Db, payment: Uuid)
    requires Inv(db)
    ensures Tables(db) && ReleaseByPaymentSpec(db, payment, "compensation").Ok?
    ensures var after := ReleaseByPaymentSpec(db, payment, "compensation").value;
      PaymentCompensated(db, after, payment) && after.processed == db.processed
  {
    hide Inv, HoldReleased;
    Guarantees.InvCompensates(db);
    Guarantees.FoundIffActive(db, payment);
    if ActiveFor(db, payment).Some? {
      var h := ActiveFor(db, payment).value;
      ReleaseMeans(db, h, "compensation");
      InvHolds(db);
      NoStuck.ReleaseNeverSticks(db, h, "compensation");
      assert db.holds[h].paymentId == payment;
      Guarantees.CompensationCompletes(db, payment, "compensation");
    }
  }

  // Sweeps

  /** The selected holds, all of them active and overdue, are expired; nothing else changes status. */
  ghost predicate HoldsExpired(before: Db, after: Db, now: int, ids: seq<Uuid>) {
    && (forall i :: 0 <= i < |ids| ==>
          ids[i] in before.holds && before.holds[ids[i]].status.Active? && before.holds[ids[i]].expiresAt < now)
    && after.holds.Keys == before.holds.Keys
    && (forall h :: h in before.holds ==>
          after.holds[h] == if h in ids then before.holds[h].(status := Expired) else before.holds[h])
    && after.outbox == before.outbox + seq(|ids|, i requires 0 <= i < |ids| => Expiry(ids[i], before.holds[ids[i]]))
    && SameLedger(before, after)
  }

  /** A sweep takes a hundred holds, or all active ones whose time is over and that no one has locked. */
  ghost predicate HundredOrAll(db: Db, now: int, locked: set<Uuid>, ids: seq<Uuid>) {
    || |ids| == 100
    || forall h :: h in db.holds && db.holds[h].status.Active? && db.holds[h].expiresAt < now && h !in locked ==>
         h in ids
  }

  lemma PicksMeans(db: Db, now: int, locked: set<Uuid>, ids: seq<Uuid>)
    requires Picks(db, now, locked, ids)
    ensures HundredOrAll(db, now, locked, ids)
  {
    if |ids| != 100 {
      forall h | h in db.holds && db.holds[h].status.Active? && db.holds[h].expiresAt < now && h !in locked
        ensures h in ids
      {
        assert Expirable(db, now, h);
      }
    }
  }

  ghost function Expiry(id: Uuid, row: Hold): Event {
    Event(id, row.accountId, row.amount, row.currency, FundsReleased("expiry"))
  }

  lemma {:induction false} SweepAnnounces(db: Db, ids: seq<Uuid>, n: nat)
    requires Tables(db) && n <= |ids| && ReleaseFirst(db, ids, n, "expiry").Ok?
    ensures forall i :: 0 <= i < n ==> ids[i] in db.holds
    ensures ReleaseFirst(db, ids, n, "expiry").value.outbox
         == db.outbox + seq(n, i requires 0 <= i < n => Expiry(ids[i], db.holds[ids[i]]))
  {
    hide ReleaseSpec, HoldsSwept;
    if n > 0 {
      SweepAnnounces(db, ids, n - 1);
      SweepMovesHolds(db, ids, n - 1, "expiry");
      var before := ReleaseFirst(db, ids, n - 1, "expiry").value;
      ReleaseAnnounces(db, before, ids, n - 1);
    }
  }

  lemma ReleaseAnnounces(db: Db, before: Db, ids: seq<Uuid>, k: nat)
    requires Tables(before) && k < |ids| && HoldsSwept(db, ids, k, "expiry", before)
    requires ReleaseSpec(before, ids[k], "expiry").Ok?
    ensures ids[k] in db.holds
    ensures ReleaseSpec(before, ids[k], "expiry").value.outbox == before.outbox + [Expiry(ids[k], db.holds[ids[k]])]
  {
  }

  lemma SweepMeans(db: Db, now: int, ids: seq<Uuid>)
    requires Tables(db) && Selection(db, now, ids) && SweepSpec(db, ids).Ok?
    ensures HoldsExpired(db, SweepSpec(db, ids).value, now, ids)
  {
    hide ReleaseFirst;
    SweepAnnounces(db, ids, |ids|);
    SweepMovesHolds(db, ids, |ids|, "expiry");
    SweepKeepsRest(db, ids, |ids|, "expiry");
    assert ids[..|ids|] == ids;
    assert forall i :: 0 <= i < |ids| ==> Expirable(db, now, ids[i]);
  }
}
