/**
 * The database as one open transaction sees it. Each method is one SQL statement: it either does
 * exactly what the schema allows, or fails on a constraint, or fails for reasons of infrastructure,
 * which may strike any round trip to the server. What strikes when is a schedule that the store is given
 * and that only RoundTrip reads. After a failed statement every later one fails too.
 */
module Store {
  import opened Int64
  import opened Schema
  import opened Sequences
  import opened Effects

  /** faults(n) is what strikes round trip n, if anything: a serialization failure or a lost connection. */
  predicate Hits(faults: nat -> Option<Error>, n: nat) {
    faults(n).Some? && (faults(n).value.Serialization? || faults(n).value.ConnectionLost?)
  }

  /** How many of the first n round trips are struck. */
  ghost function Strikes(faults: nat -> Option<Error>, n: nat): nat {
    if n == 0 then 0 else Strikes(faults, n - 1) + (if Hits(faults, n - 1) then 1 else 0)
  }

  /** The last fault that struck the first n round trips. */
  ghost function LastFault(faults: nat -> Option<Error>, n: nat): Option<Error> {
    if n == 0 then None else if Hits(faults, n - 1) then faults(n - 1) else LastFault(faults, n - 1)
  }

  lemma {:induction false} LastFaultIsReal(faults: nat -> Option<Error>, n: nat)
    ensures LastFault(faults, n) != Some(TransactionAborted)
  {
    if n > 0 {
      LastFaultIsReal(faults, n - 1);
    }
  }

  class Store {
    const faults: nat -> Option<Error>
    /** The rows of holds that other transactions have locked at each round trip. */
    const locks: nat -> set<Uuid>
    /** The round trips made so far. */
    var trips: nat

    var accounts: map<Uuid, Account>
    var balances: map<Uuid, Balance>
    var transactions: map<Uuid, Transaction>
    var entries: seq<Entry>
    var holds: map<Uuid, Hold>
    var outbox: seq<Event>
    var responses: map<string, Stored>
    var processed: set<Uuid>

    /** The open transaction has failed and can only be rolled back. */
    var aborted: bool

    /** The tables as one value. */
    function State(): Db
      reads this
    {
      Db(accounts, balances, transactions, entries, holds, outbox, responses, processed)
    }

    /** Between round trip `from` and now exactly the reported fault has struck, as the last thing, or nothing. */
    ghost predicate Blames(from: nat, fault: Option<Error>)
      reads this
    {
      && from <= trips
      && match fault
         case None => Strikes(faults, trips) == Strikes(faults, from)
         case Some(_) => Strikes(faults, trips) == Strikes(faults, from) + 1 && LastFault(faults, trips) == fault
    }

    constructor (faults: nat -> Option<Error>, locks: nat -> set<Uuid>)
      ensures State() == Initial() && !aborted && this.faults == faults && this.locks == locks && trips == 0
    {
      this.faults, this.locks, trips := faults, locks, 0;
      var db := Initial();
      accounts, balances, transactions, entries := db.accounts, db.balances, db.transactions, db.entries;
      holds, outbox, responses, processed := db.holds, db.outbox, db.responses, db.processed;
      aborted := false;
    }

    /** Rollback: every table returns to the given snapshot. */
    method Restore(db: Db)
      modifies this
      ensures State() == db && !aborted && trips == old(trips)
    {
      accounts, balances, transactions, entries := db.accounts, db.balances, db.transactions, db.entries;
      holds, outbox, responses, processed := db.holds, db.outbox, db.responses, db.processed;
      aborted := false;
    }

    /** A round trip to the server, which fails if the schedule says so. */
    method RoundTrip() returns (s: Status)
      modifies this`trips, this`aborted
      ensures s.Pass? ==> !aborted
      ensures s.Fail? ==> aborted && s.error.Transient()
      ensures old(aborted) ==> s == Fail(TransactionAborted) && trips == old(trips)
      ensures !old(aborted) ==> Blames(old(trips), s.Fault()) && trips == old(trips) + 1
    {
      if aborted {
        return Fail(TransactionAborted);
      }
      trips := trips + 1;
      if Hits(faults, trips - 1) {
        aborted := true;
        return Fail(faults(trips - 1).value);
      }
      return Pass;
    }

    /** A statement runs if `allowed`, violates a constraint otherwise, and may fail in transit. */
    method Attempt(allowed: bool) returns (s: Status)
      modifies this`trips, this`aborted
      ensures s.Pass? ==> allowed && !aborted
      ensures old(aborted) ==> s == Fail(TransactionAborted) && trips == old(trips)
      ensures s.Fail? ==> aborted && (s.error.Transient() || (s.error == Constraint && !allowed))
      ensures !old(aborted) ==> Blames(old(trips), s.Fault())
    {
      s := RoundTrip();
      if s.Pass? && !allowed {
        aborted := true;
        s := Fail(Constraint);
      }
    }

    method InsertAccount(id: Uuid, row: Account) returns (s: Status)
      modifies this`accounts, this`trips, this`aborted
      ensures s.Pass? ==> !aborted && id !in old(accounts) && accounts == old(accounts)[id := row]
      ensures s.Fail? ==> s.error.Transient() || (s.error == Constraint && id in old(accounts))
      ensures !old(aborted) ==> Blames(old(trips), s.Fault())
    {
      s := Attempt(id !in accounts);
      if s.Pass? {
        accounts := accounts[id := row];
      }
    }

    method InsertBalance(id: Uuid) returns (s: Status)
      modifies this`balances, this`trips, this`aborted
      ensures s.Pass? ==> !aborted && id in accounts && id !in old(balances)
      ensures s.Pass? ==> balances == old(balances)[id := Balance(0, 0, 0)]
      ensures s.Fail? ==> s.error.Transient() || (s.error == Constraint && (id !in accounts || id in old(balances)))
      ensures !old(aborted) ==> Blames(old(trips), s.Fault())
    {
      s := Attempt(id in accounts && id !in balances);
      if s.Pass? {
        balances := balances[id := Balance(0, 0, 0)];
      }
    }

    /** available and held move by the given amounts; the result is the number of rows changed. */
    method UpdateBalance(id: Uuid, dAvailable: int, dHeld: int) returns (r: Result<nat>)
      modifies this`balances, this`trips, this`aborted
      ensures r.Ok? ==> !aborted
      ensures r.Ok? && id in old(balances) ==>
        && r.value == 1 && BumpFits(old(balances), id, dAvailable, dHeld)
        && balances == Bump(old(balances), id, dAvailable, dHeld)
      ensures r.Ok? && id !in old(balances) ==> r.value == 0 && balances == old(balances)
      ensures r.Err? && !r.error.Transient() ==>
        r.error == Constraint && id in old(balances) && !BumpFits(old(balances), id, dAvailable, dHeld)
      ensures !old(aborted) ==> Blames(old(trips), r.Fault())
    {
      var s := Attempt(id !in balances || BumpFits(balances, id, dAvailable, dHeld));
      if s.Fail? {
        return Err(s.error);
      }
      if id !in balances {
        return Ok(0);
      }
      balances := Bump(balances, id, dAvailable, dHeld);
      return Ok(1);
    }

    static predicate TransactionAllowed(ts: map<Uuid, Transaction>, id: Uuid, row: Transaction) {
      id !in ts && (row.key.Some? ==> !KeyUsed(ts, row.key.value))
    }

    method InsertTransaction(id: Uuid, row: Transaction) returns (s: Status)
      modifies this`transactions, this`trips, this`aborted
      ensures s.Pass? ==> !aborted && TransactionAllowed(old(transactions), id, row)
      ensures s.Pass? ==> transactions == old(transactions)[id := row]
      ensures s.Fail? && !s.error.Transient() ==>
        s.error == Constraint && !TransactionAllowed(old(transactions), id, row)
      ensures !old(aborted) ==> Blames(old(trips), s.Fault())
    {
      s := Attempt(TransactionAllowed(transactions, id, row));
      if s.Pass? {
        transactions := transactions[id := row];
      }
    }

    predicate EntryAllowed(e: Entry)
      reads this
    {
      && e.transactionId in transactions && e.leg.accountId in accounts
      && 0 < e.leg.amount <= MAX && !e.leg.direction.OtherDirection?
    }

    method InsertEntry(e: Entry) returns (s: Status)
      modifies this`entries, this`trips, this`aborted
      ensures s.Pass? ==> !aborted && EntryAllowed(e) && entries == old(entries) + [e]
      ensures s.Fail? ==> s.error.Transient() || (s.error == Constraint && !EntryAllowed(e))
      ensures !old(aborted) ==> Blames(old(trips), s.Fault())
    {
      s := Attempt(EntryAllowed(e));
      if s.Pass? {
        entries := entries + [e];
      }
    }

    predicate HoldAllowed(id: Uuid, row: Hold)
      reads this
    {
      && id !in holds && row.accountId in accounts && 0 < row.amount <= MAX
      && (row.status.Active? ==> !HasActive(holds, row.paymentId))
    }

    method InsertHold(id: Uuid, row: Hold) returns (s: Status)
      modifies this`holds, this`trips, this`aborted
      ensures s.Pass? ==> !aborted && old(HoldAllowed(id, row)) && holds == old(holds)[id := row]
      ensures s.Fail? ==> s.error.Transient() || (s.error == Constraint && !old(HoldAllowed(id, row)))
      ensures !old(aborted) ==> Blames(old(trips), s.Fault())
    {
      s := Attempt(HoldAllowed(id, row));
      if s.Pass? {
        holds := holds[id := row];
      }
    }

    /** The source only ever writes terminal statuses, which no constraint forbids. */
    method UpdateHoldStatus(id: Uuid, status: HoldStatus) returns (s: Status)
      requires !status.Active?
      modifies this`holds, this`trips, this`aborted
      ensures s.Pass? ==> !aborted
      ensures s.Pass? ==>
        holds == if id in old(holds) then old(holds)[id := old(holds)[id].(status := status)] else old(holds)
      ensures s.Fail? ==> s.error.Transient()
      ensures !old(aborted) ==> Blames(old(trips), s.Fault())
    {
      s := Attempt(true);
      if s.Pass? && id in holds {
        holds := holds[id := holds[id].(status := status)];
      }
    }

    method InsertOutbox(e: Event) returns (s: Status)
      modifies this`outbox, this`trips, this`aborted
      ensures s.Pass? ==> !aborted && outbox == old(outbox) + [e]
      ensures s.Fail? ==> s.error.Transient()
      ensures !old(aborted) ==> Blames(old(trips), s.Fault())
    {
      s := Attempt(true);
      if s.Pass? {
        outbox := outbox + [e];
      }
    }

    method InsertResponse(requestId: string, row: Stored) returns (s: Status)
      modifies this`responses, this`trips, this`aborted
      ensures s.Pass? ==> !aborted && requestId !in old(responses) && responses == old(responses)[requestId := row]
      ensures s.Fail? ==> s.error.Transient() || (s.error == Constraint && requestId in old(responses))
      ensures !old(aborted) ==> Blames(old(trips), s.Fault())
    {
      s := Attempt(requestId !in responses);
      if s.Pass? {
        responses := responses[requestId := row];
      }
    }

    /** `on conflict do nothing`: the result is the number of rows inserted. */
    method InsertProcessed(eventId: Uuid) returns (r: Result<nat>)
      modifies this`processed, this`trips, this`aborted
      ensures r.Ok? ==> !aborted && processed == old(processed) + {eventId}
      ensures r.Ok? ==> (r.value == 0 <==> eventId in old(processed))
      ensures r.Err? ==> r.error.Transient()
      ensures !old(aborted) ==> Blames(old(trips), r.Fault())
    {
      var s := Attempt(true);
      if s.Fail? {
        return Err(s.error);
      }
      if eventId in processed {
        return Ok(0);
      }
      processed := processed + {eventId};
      return Ok(1);
    }

    method SelectBalance(id: Uuid) returns (r: Result<(Balance, Currency)>)
      requires Tables(State())
      modifies this`trips, this`aborted
      ensures r.Ok? ==> !aborted && id in balances && r.value == (balances[id], accounts[id].currency)
      ensures r.Err? ==> r.error.Transient() || (r.error == NotFound && id !in balances)
      ensures !old(aborted) ==> Blames(old(trips), r.Fault())
    {
      var s := Attempt(true);
      if s.Fail? {
        return Err(s.error);
      }
      if id !in balances {
        return Err(NotFound);
      }
      return Ok((balances[id], accounts[id].currency));
    }

    method SelectHold(id: Uuid) returns (r: Result<Hold>)
      modifies this`trips, this`aborted
      ensures r.Ok? ==> !aborted && id in holds && r.value == holds[id]
      ensures r.Err? ==> r.error.Transient() || (r.error == NotFound && id !in holds)
      ensures old(aborted) ==> r == Err(TransactionAborted) && trips == old(trips)
      ensures !old(aborted) ==> Blames(old(trips), r.Fault())
    {
      var s := Attempt(true);
      if s.Fail? {
        return Err(s.error);
      }
      if id !in holds {
        return Err(NotFound);
      }
      return Ok(holds[id]);
    }

    method SelectActiveFor(paymentId: Uuid) returns (r: Result<Option<Uuid>>)
      modifies this`trips, this`aborted
      ensures r.Ok? ==> !aborted
      ensures r.Ok? && r.value.Some? ==> IsActiveFor(State(), paymentId, r.value.value)
      ensures r.Ok? && r.value.None? ==> !HasActive(holds, paymentId)
      ensures r.Err? ==> r.error.Transient()
      ensures !old(aborted) ==> Blames(old(trips), r.Fault())
    {
      var s := Attempt(true);
      if s.Fail? {
        return Err(s.error);
      }
      if HasActive(holds, paymentId) {
        var h :| h in holds && holds[h].status.Active? && holds[h].paymentId == paymentId;
        return Ok(Some(h));
      }
      return Ok(None);
    }

    method SelectResponse(requestId: string) returns (r: Result<Option<Stored>>)
      modifies this`trips, this`aborted
      ensures r.Ok? ==> !aborted && r.value == if requestId in responses then Some(responses[requestId]) else None
      ensures r.Err? ==> r.error.Transient()
      ensures !old(aborted) ==> Blames(old(trips), r.Fault())
    {
      var s := Attempt(true);
      if s.Fail? {
        return Err(s.error);
      }
      return Ok(if requestId in responses then Some(responses[requestId]) else None);
    }

    /**
     * `where status='active' and expires_at < now() for update skip locked limit 100`. A failure while rows are
     * being read ends the result early without an error and leaves the transaction aborted, because the caller
     * does not look at rows.Err().
     */
    method SelectExpired(now: int) returns (r: Result<seq<Uuid>>)
      modifies this`trips, this`aborted
      ensures r.Ok? ==> Selection(State(), now, r.value)
      ensures r.Ok? && !aborted ==> Picks(State(), now, locks(old(trips)), r.value)
      ensures r.Err? ==> r.error.Transient()
      ensures !old(aborted) ==> Blames(old(trips), if r.Ok? && aborted then LastFault(faults, trips) else r.Fault())
      ensures !old(aborted) && r.Ok? && aborted ==> LastFault(faults, trips).Some?
      ensures old(aborted) ==> r == Err(TransactionAborted) && trips == old(trips)
    {
      var locked := locks(trips);
      var s := Attempt(true);
      if s.Fail? {
        return Err(s.error);
      }
      var ids: seq<Uuid> := [];
      var todo := holds.Keys;
      while todo != {} && |ids| < SWEEP_LIMIT
        invariant todo <= holds.Keys && !aborted && !old(aborted) && Blames(old(trips), None)
        invariant |ids| <= SWEEP_LIMIT && Distinct(ids)
        invariant forall i :: 0 <= i < |ids| ==> Expirable(State(), now, ids[i]) && ids[i] !in locked && ids[i] !in todo
        invariant forall h :: Expirable(State(), now, h) && h !in locked ==> h in ids || h in todo
        decreases todo
      {
        s := RoundTrip();
        if s.Fail? {
          return Ok(ids);
        }
        var h :| h in todo;
        if holds[h].status.Active? && holds[h].expiresAt < now && h !in locked {
          ids := ids + [h];
        }
        todo := todo - {h};
      }
      return Ok(ids);
    }
  }
}
