/**
 * internal/ledger/operations.go and the posting half of internal/ledger/ledger.go, statement by
 * statement. Every method is proved to have the atomic meaning given in Effects.
 */
module Operations {
  import opened Int64
  import opened Schema
  import opened Effects
  import opened Invariants
  import opened Store
  import Validate

  /** The outcome of a program run inside a transaction, against its atomic meaning. */
  ghost predicate Refines<T>(r: Result<T>, after: Db, aborted: bool, meaning: Result<Db>) {
    && (r.Ok? ==> !aborted && meaning == Ok(after))
    && (r.Err? ==> r.error.Transient() || meaning == Err(r.error))
  }

  method BumpBalance(tx: Store, accountId: Uuid, dAvailable: int, dHeld: int) returns (r: Result<()>)
    modifies tx`balances, tx`trips, tx`aborted
    ensures r.Ok? ==> !tx.aborted && BumpFits(old(tx.balances), accountId, dAvailable, dHeld)
    ensures r.Ok? ==> tx.balances == Bump(old(tx.balances), accountId, dAvailable, dHeld)
    ensures r.Err? && !r.error.Transient() ==> r.error == if accountId in old(tx.balances) then Constraint else NotFound
    ensures r.Err? && r.error == Constraint ==> !BumpFits(old(tx.balances), accountId, dAvailable, dHeld)
    ensures !old(tx.aborted) ==> tx.Blames(old(tx.trips), r.Fault())
  {
    var affected :- tx.UpdateBalance(accountId, dAvailable, dHeld);
    if affected != 1 {
      return Err(NotFound);
    }
    return Ok(());
  }

  /** The posting balances, its ids and key are new, and its accounts exist. */
  ghost predicate Postable(db: Db, txnId: Uuid, key: Option<Key>, legs: seq<Leg>) {
    && Validate.Acceptable(legs)
    && txnId !in db.transactions && (key.Some? ==> !KeyUsed(db.transactions, key.value))
    && forall i :: 0 <= i < |legs| ==> legs[i].accountId in db.accounts && legs[i].amount <= MAX
  }

  /** Writes one ledger transaction and its legs, provided the legs balance. */
  method Post(tx: Store, txnId: Uuid, kind: Kind, paymentId: Option<Uuid>, key: Option<Key>, legs: seq<Leg>)
    returns (r: Result<()>)
    modifies tx`transactions, tx`entries, tx`trips, tx`aborted
    ensures r.Ok? ==> !tx.aborted && Postable(old(tx.State()), txnId, key, legs)
    ensures r.Ok? ==> tx.transactions == old(tx.transactions)[txnId := Transaction(key, kind, paymentId)]
    ensures r.Ok? ==> tx.entries == old(tx.entries) + Entries(txnId, legs)
    ensures r.Err? && !r.error.Transient() ==> !Postable(old(tx.State()), txnId, key, legs)
    ensures r.Err? && !r.error.Transient() ==> r.error == if Validate.Acceptable(legs) then Constraint else BadPosting
    ensures !old(tx.aborted) ==> tx.Blames(old(tx.trips), r.Fault())
  {
    hide Strikes, LastFault;
    var v := Validate.ValidateBalanced(legs);
    if !v.Balanced? {
      return Err(BadPosting);
    }
    :- tx.InsertTransaction(txnId, Transaction(key, kind, paymentId));
    for i := 0 to |legs|
      invariant !tx.aborted && (!old(tx.aborted) ==> tx.Blames(old(tx.trips), None))
      invariant tx.transactions == old(tx.transactions)[txnId := Transaction(key, kind, paymentId)]
      invariant forall j :: 0 <= j < i ==> legs[j].accountId in tx.accounts && legs[j].amount <= MAX
      invariant tx.entries == old(tx.entries) + Entries(txnId, legs[..i])
    {
      assert Validate.WellFormed(legs[i]);
      :- tx.InsertEntry(Entry(txnId, legs[i]));
      assert Entries(txnId, legs[..i + 1]) == Entries(txnId, legs[..i]) + [Entry(txnId, legs[i])];
    }
    assert legs[..|legs|] == legs;
    return Ok(());
  }

  /** The tail that Capture and Deposit share: the posting, then one balance update for each leg. */
  method PostAndBump(tx: Store, txnId: Uuid, kind: Kind, paymentId: Option<Uuid>, key: Key, legs: seq<Leg>,
                     dFrom: int, dFromHeld: int, dTo: int) returns (r: Result<()>)
    requires Tables(tx.State()) && |legs| == 2
    modifies tx`transactions, tx`entries, tx`balances, tx`trips, tx`aborted
    ensures r.Ok? ==> !tx.aborted && Postable(old(tx.State()), txnId, Some(key), legs)
    ensures r.Ok? ==> BothFit(old(tx.balances), legs, dFrom, dFromHeld, dTo)
    ensures r.Ok? ==> tx.transactions == old(tx.transactions)[txnId := Transaction(Some(key), kind, paymentId)]
    ensures r.Ok? ==> tx.entries == old(tx.entries) + Entries(txnId, legs)
    ensures r.Ok? ==>
      tx.balances == Bump(Bump(old(tx.balances), legs[0].accountId, dFrom, dFromHeld), legs[1].accountId, dTo, 0)
    ensures r.Err? && !r.error.Transient() ==>
      !Postable(old(tx.State()), txnId, Some(key), legs) || !BothFit(old(tx.balances), legs, dFrom, dFromHeld, dTo)
    ensures r.Err? && !r.error.Transient() ==> r.error == if Validate.Acceptable(legs) then Constraint else BadPosting
    ensures !old(tx.aborted) ==> tx.Blames(old(tx.trips), r.Fault())
  {
    var _ :- Post(tx, txnId, kind, paymentId, Some(key), legs);
    assert legs[0].accountId in tx.balances && legs[1].accountId in tx.balances;
    var _ :- BumpBalance(tx, legs[0].accountId, dFrom, dFromHeld);
    r := BumpBalance(tx, legs[1].accountId, dTo, 0);
  }

  ghost predicate BothFit(bs: map<Uuid, Balance>, legs: seq<Leg>, dFrom: int, dFromHeld: int, dTo: int)
    requires |legs| == 2
  {
    && BumpFits(bs, legs[0].accountId, dFrom, dFromHeld)
    && BumpFits(Bump(bs, legs[0].accountId, dFrom, dFromHeld), legs[1].accountId, dTo, 0)
  }

  method Hold(tx: Store, holdId: Uuid, accountId: Uuid, paymentId: Uuid, amount: int, currency: Currency,
              expiresAt: int)
    returns (r: Result<Reply>)
    requires Tables(tx.State()) && (forall a :: a in tx.balances ==> tx.balances[a].available <= MAX)
    modifies tx
    ensures Refines(r, tx.State(), tx.aborted,
                    HoldSpec(old(tx.State()), holdId, accountId, paymentId, amount, currency, expiresAt))
    ensures r.Ok? ==>
      accountId in tx.balances && r.value == HoldReply(holdId, tx.balances[accountId].available, currency)
    ensures !old(tx.aborted) ==> tx.Blames(old(tx.trips), r.Fault())
  {
    var row :- tx.SelectBalance(accountId);
    var (b, accountCurrency) := row;
    if accountCurrency != currency {
      return Err(CurrencyMismatch);
    }
    if b.available < amount {
      return Err(InsufficientFunds);
    }
    r := PlaceHold(tx, holdId, accountId, paymentId, amount, currency, expiresAt);
  }

  /** The writes of Hold, once its checks have passed. */
  method PlaceHold(tx: Store, holdId: Uuid, accountId: Uuid, paymentId: Uuid, amount: int, currency: Currency,
                   expiresAt: int)
    returns (r: Result<Reply>)
    requires Tables(tx.State()) && accountId in tx.balances && amount <= tx.balances[accountId].available <= MAX
    modifies tx
    ensures r.Ok? ==> !tx.aborted && HoldStorable(old(tx.State()), holdId, accountId, paymentId, amount)
    ensures r.Ok? ==>
      tx.State() == HoldEffect(old(tx.State()), holdId, accountId, paymentId, amount, currency, expiresAt)
    ensures r.Ok? ==> r.value == HoldReply(holdId, tx.balances[accountId].available, currency)
    ensures r.Err? && !r.error.Transient() ==>
      r.error == Constraint && !HoldStorable(old(tx.State()), holdId, accountId, paymentId, amount)
    ensures !old(tx.aborted) ==> tx.Blames(old(tx.trips), r.Fault())
  {
    hide Strikes, LastFault;
    var availableAfter := tx.balances[accountId].available - amount;
    :- tx.InsertHold(holdId, Schema.Hold(accountId, paymentId, amount, currency, Active, expiresAt));
    var _ :- BumpBalance(tx, accountId, -amount, amount);
    :- tx.InsertOutbox(Event(holdId, accountId, amount, currency, FundsHeld(paymentId, expiresAt)));
    return Ok(HoldReply(holdId, availableAfter, currency));
  }

  lemma CaptureIsPosting(db: Db, holdId: Uuid, amount: int, txnId: Uuid)
    requires holdId in db.holds && Supported(db.holds[holdId].currency) && 0 < amount <= MAX
    ensures var h := db.holds[holdId];
      var legs := CaptureLegs(h, amount);
      && Validate.Acceptable(legs)
      && (CaptureStorable(db, holdId, amount, txnId)
          <==> Postable(db, txnId, Some(CaptureOf(holdId)), legs)
               && BothFit(db.balances, legs, h.amount - amount, -h.amount, amount))
  {
    var h := db.holds[holdId];
    var legs := CaptureLegs(h, amount);
    PairAcceptable(h.accountId, Payable(h.currency), amount, h.currency);
    assert legs[0] == Leg(h.accountId, Debit, amount, h.currency)
      && legs[1] == Leg(Payable(h.currency), Credit, amount, h.currency);
  }

  method Capture(tx: Store, holdId: Uuid, amount: int, txnId: Uuid) returns (r: Result<Reply>)
    requires Tables(tx.State()) && (forall h :: h in tx.holds ==> tx.holds[h].amount <= MAX)
    modifies tx
    ensures Refines(r, tx.State(), tx.aborted, CaptureSpec(old(tx.State()), holdId, amount, txnId))
    ensures r.Ok? ==> r.value == CaptureReply(txnId)
    ensures !old(tx.aborted) ==> tx.Blames(old(tx.trips), r.Fault())
  {
    var h :- tx.SelectHold(holdId);
    if !h.status.Active? {
      return Err(HoldNotActive);
    }
    if amount <= 0 || amount > h.amount {
      return Err(AmountExceedsHold);
    }
    if !Supported(h.currency) {
      return Err(NoSystemAccount);
    }
    r := CaptureActive(tx, holdId, h, amount, txnId);
  }

  /** The writes of Capture, once its checks have passed. */
  method CaptureActive(tx: Store, holdId: Uuid, h: Schema.Hold, amount: int, txnId: Uuid) returns (r: Result<Reply>)
    requires Tables(tx.State()) && holdId in tx.holds && tx.holds[holdId] == h
    requires Supported(h.currency) && 0 < amount <= h.amount <= MAX
    modifies tx
    ensures r.Ok? ==> !tx.aborted && CaptureStorable(old(tx.State()), holdId, amount, txnId)
    ensures r.Ok? ==> tx.State() == CaptureEffect(old(tx.State()), holdId, amount, txnId)
    ensures r.Ok? ==> r.value == CaptureReply(txnId)
    ensures r.Err? && !r.error.Transient() ==>
      r.error == Constraint && !CaptureStorable(old(tx.State()), holdId, amount, txnId)
    ensures !old(tx.aborted) ==> tx.Blames(old(tx.trips), r.Fault())
  {
    hide Strikes, LastFault;
    var legs := CaptureLegs(h, amount);
    CaptureIsPosting(tx.State(), holdId, amount, txnId);
    var remainder := h.amount - amount;
    var _ :- PostAndBump(tx, txnId, CaptureKind, Some(h.paymentId), CaptureOf(holdId), legs,
                         remainder, -h.amount, amount);
    var _ :- CloseCapture(tx, holdId, h, amount, txnId);
    return Ok(CaptureReply(txnId));
  }

  /** Closes a captured hold; what is left of it, if anything, is announced as released. */
  method CloseCapture(tx: Store, holdId: Uuid, h: Schema.Hold, amount: int, txnId: Uuid) returns (r: Result<()>)
    requires holdId in tx.holds && tx.holds[holdId] == h
    modifies tx`outbox, tx`holds, tx`trips, tx`aborted
    ensures r.Ok? ==> !tx.aborted && tx.outbox == old(tx.outbox) + CaptureEvents(holdId, h, txnId, amount)
    ensures r.Ok? ==> tx.holds == old(tx.holds)[holdId := h.(status := Captured)]
    ensures r.Err? ==> r.error.Transient()
    ensures !old(tx.aborted) ==> tx.Blames(old(tx.trips), r.Fault())
  {
    var remainder := h.amount - amount;
    :- tx.UpdateHoldStatus(holdId, Captured);
    :- tx.InsertOutbox(Event(holdId, h.accountId, amount, h.currency, FundsCaptured(txnId)));
    if remainder > 0 {
      :- tx.InsertOutbox(Event(holdId, h.accountId, remainder, h.currency, FundsReleased("partial_capture_remainder")));
    }
    return Ok(());
  }

  lemma PairAcceptable(from: Uuid, to: Uuid, amount: int, c: Currency)
    ensures Validate.Acceptable([Leg(from, Debit, amount, c), Leg(to, Credit, amount, c)]) <==> 0 < amount
  {
    Validate.PairIsBalanced(from, to, amount, c);
    assert Validate.WellFormed(Leg(from, Debit, amount, c)) <==> 0 < amount;
    var legs := [Leg(from, Debit, amount, c), Leg(to, Credit, amount, c)];
    assert legs[0] == Leg(from, Debit, amount, c);
  }

  method Release(tx: Store, holdId: Uuid, reason: string) returns (r: Result<()>)
    requires Tables(tx.State())
    modifies tx
    ensures Refines(r, tx.State(), tx.aborted, ReleaseSpec(old(tx.State()), holdId, reason))
    ensures r.Ok? ==> old(holdId in tx.holds && tx.holds[holdId].status.Active?)
    ensures r.Ok? ==> holdId in tx.holds
    ensures r.Ok? ==> tx.holds[holdId].status == if reason == "expiry" then Expired else Released
    ensures old(tx.aborted) ==> r == Err(TransactionAborted) && tx.trips == old(tx.trips)
    ensures !old(tx.aborted) ==> tx.Blames(old(tx.trips), r.Fault())
  {
    hide Strikes, LastFault;
    var h :- tx.SelectHold(holdId);
    if !h.status.Active? {
      return Err(HoldNotActive);
    }
    r := ReleaseActive(tx, holdId, h, reason);
  }

  /** The writes of Release, once its check has passed. */
  method ReleaseActive(tx: Store, holdId: Uuid, h: Schema.Hold, reason: string) returns (r: Result<()>)
    requires Tables(tx.State()) && holdId in tx.holds && tx.holds[holdId] == h
    modifies tx
    ensures r.Ok? ==> !tx.aborted && BumpFits(old(tx.balances), h.accountId, h.amount, -h.amount)
    ensures r.Ok? ==> tx.State() == ReleaseEffect(old(tx.State()), holdId, reason)
    ensures r.Ok? ==>
      tx.holds == old(tx.holds)[holdId := h.(status := if reason == "expiry" then Expired else Released)]
    ensures r.Err? && !r.error.Transient() ==>
      r.error == Constraint && !BumpFits(old(tx.balances), h.accountId, h.amount, -h.amount)
    ensures !old(tx.aborted) ==> tx.Blames(old(tx.trips), r.Fault())
  {
    hide Strikes, LastFault;
    var newStatus := Released;
    if reason == "expiry" {
      newStatus := Expired;
    }
    var _ :- BumpBalance(tx, h.accountId, h.amount, -h.amount);
    :- tx.UpdateHoldStatus(holdId, newStatus);
    :- tx.InsertOutbox(Event(holdId, h.accountId, h.amount, h.currency, FundsReleased(reason)));
    return Ok(());
  }

  method ReleaseByPayment(tx: Store, paymentId: Uuid, reason: string) returns (r: Result<bool>)
    requires Tables(tx.State()) && OnePerPayment(tx.State())
    modifies tx
    ensures Refines(r, tx.State(), tx.aborted, ReleaseByPaymentSpec(old(tx.State()), paymentId, reason))
    ensures r.Ok? ==> (r.value <==> HasActive(old(tx.holds), paymentId))
    ensures !old(tx.aborted) ==> tx.Blames(old(tx.trips), r.Fault())
  {
    var found :- tx.SelectActiveFor(paymentId);
    if found.None? {
      return Ok(false);
    }
    assert ActiveFor(tx.State(), paymentId) == found;
    var _ :- Release(tx, found.value, reason);
    return Ok(true);
  }

  method Deposit(tx: Store, accountId: Uuid, amount: int, currency: Currency, key: Key, txnId: Uuid)
    returns (r: Result<()>)
    requires Tables(tx.State()) && amount <= MAX
    modifies tx
    ensures Refines(r, tx.State(), tx.aborted, DepositSpec(old(tx.State()), accountId, amount, currency, key, txnId))
    ensures !old(tx.aborted) ==> tx.Blames(old(tx.trips), r.Fault())
  {
    if !Supported(currency) {
      return Err(NoSystemAccount);
    }
    var settlement := Settlement(currency);
    var legs := DepositLegs(accountId, amount, currency);
    PairAcceptable(settlement, accountId, amount, currency);
    r := PostAndBump(tx, txnId, DepositKind, None, key, legs, amount, 0, amount);
  }

  /** The loop of SweepExpiredHolds: releases the selected holds in order and counts them. */
  method ReleaseEach(tx: Store, ids: seq<Uuid>) returns (r: Result<nat>)
    requires Tables(tx.State())
    modifies tx
    ensures r.Ok? && !tx.aborted ==> SweepSpec(old(tx.State()), ids) == Ok(tx.State())
    ensures old(tx.aborted) ==> tx.trips == old(tx.trips)
    ensures old(tx.aborted) ==> (r.Ok? && tx.aborted) || r == Err(TransactionAborted)
    ensures !old(tx.aborted) ==> tx.Blames(old(tx.trips), r.Fault()) && (r.Ok? ==> !tx.aborted)
    ensures r.Ok? ==> r.value == |ids|
    ensures r.Err? && !r.error.Transient() ==> SweepSpec(old(tx.State()), ids) == Err(r.error)
  {
    hide ReleaseSpec, Tables;
    var released := 0;
    ghost var before := tx.State();
    for i := 0 to |ids|
      invariant released == i
      invariant old(tx.aborted) ==> i == 0 && tx.aborted && tx.trips == old(tx.trips)
      invariant !old(tx.aborted) ==> !tx.aborted && tx.Blames(old(tx.trips), None)
      invariant tx.aborted ==> i == 0 && Tables(tx.State())
      invariant !tx.aborted ==> ReleaseFirst(before, ids, i, "expiry") == Ok(tx.State())
    {
      var one := Release(tx, ids[i], "expiry");
      if one.Err? {
        if !one.error.Transient() {
          FailureStays(before, ids, i + 1, "expiry");
        }
        return Err(one.error);
      }
      released := released + 1;
    }
    return Ok(released);
  }

  /** One fault at most has struck, and unless it spoilt a read it is the reported one. */
  ghost predicate Caught<T>(tx: Store, from: nat, r: Result<T>)
    reads tx
  {
    if r.Fault() == Some(TransactionAborted) || (r.Ok? && tx.aborted)
    then LastFault(tx.faults, tx.trips).Some? && tx.Blames(from, LastFault(tx.faults, tx.trips))
    else tx.Blames(from, r.Fault())
  }

  /**
   * The body of SweepExpiredHolds: releases what the query returned, in that order. If no row was locked by
   * others, these are all overdue holds or a hundred of them.
   */
  method Sweep(tx: Store, now: int) returns (r: Result<nat>, ids: seq<Uuid>)
    requires Tables(tx.State())
    modifies tx
    ensures Selection(old(tx.State()), now, ids)
    ensures r.Ok? && !tx.aborted ==> Picks(old(tx.State()), now, tx.locks(old(tx.trips)), ids)
    ensures r.Ok? && !tx.aborted && tx.locks(old(tx.trips)) == {} ==> FullSweep(old(tx.State()), now, ids)
    ensures r.Ok? && !tx.aborted ==> SweepSpec(old(tx.State()), ids) == Ok(tx.State())
    ensures r.Ok? ==> r.value == |ids|
    ensures r.Err? && !r.error.Transient() ==> SweepSpec(old(tx.State()), ids) == Err(r.error)
    ensures !old(tx.aborted) ==> Caught(tx, old(tx.trips), r)
  {
    var q := tx.SelectExpired(now);
    if q.Err? {
      return Err(q.error), [];
    }
    ids := q.value;
    r := ReleaseEach(tx, ids);
  }

  lemma {:induction false} FailureStays(db: Db, ids: seq<Uuid>, i: nat, reason: string)
    requires Tables(db) && i <= |ids| && ReleaseFirst(db, ids, i, reason).Err?
    ensures ReleaseFirst(db, ids, |ids|, reason) == ReleaseFirst(db, ids, i, reason)
    decreases |ids| - i
  {
    if i < |ids| {
      FailureStays(db, ids, i + 1, reason);
    }
  }
}
