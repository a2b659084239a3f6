/**
 * Facade.InTx of internal/ledger/ledger.go and the closures it is given by internal/grpcapi and
 * internal/consumer: serializable transactions with bounded retry, run statement by statement.
 */
module Transactions {
  import opened Int64
  import opened Schema
  import opened Effects
  import opened Invariants
  import opened Store
  import opened Machine
  import opened Safety
  import Operations

  /** What the statement programs need of the tables. */
  ghost predicate Ready(db: Db) {
    Tables(db) && Ranges(db) && OnePerPayment(db)
  }

  lemma InvReady(db: Db)
    requires Inv(db)
    ensures Ready(db)
  {
  }

  /** A closure run on an open transaction means Perform. */
  ghost predicate Performs(before: Db, body: Body, inp: Inputs, r: Result<Reply>, after: Db, aborted: bool) {
    && (r.Ok? && !aborted ==> Perform(before, body, inp) == Ok(Done(after, r.value)))
    && (r.Err? && !r.error.Transient() ==> Perform(before, body, inp) == Err(r.error))
  }

  /** The closure of HoldFunds, CaptureFunds and ReleaseFunds: replay, or operate and store. */
  method RunRpc(tx: Store, body: Body, inp: Inputs) returns (r: Result<Reply>)
    requires body.IsRpc() && Ready(tx.State())
    modifies tx
    ensures Performs(old(tx.State()), body, inp, r, tx.State(), tx.aborted)
    ensures !old(tx.aborted) ==> tx.Blames(old(tx.trips), r.Fault()) && (r.Ok? ==> !tx.aborted)
  {
    hide Strikes, LastFault, Money;
    var hit :- tx.SelectResponse(body.requestId);
    if hit.Some? {
      if hit.value.rpc == body.Rpc() {
        return Ok(hit.value.reply);
      }
      return if inp.foreign.Some? then Ok(inp.foreign.value) else Err(Undecodable);
    }
    var reply :- RunOperation(tx, body, inp);
    :- tx.InsertResponse(body.requestId, Stored(body.Rpc(), reply));
    return Ok(reply);
  }

  method RunOperation(tx: Store, body: Body, inp: Inputs) returns (r: Result<Reply>)
    requires body.IsRpc() && Ready(tx.State())
    modifies tx
    ensures Operations.Refines(r, tx.State(), tx.aborted, Money(old(tx.State()), body, inp))
    ensures r.Ok? ==> r.value == ReplyOf(body, inp, tx.State())
    ensures r.Ok? ==> tx.responses == old(tx.responses) && tx.processed == old(tx.processed)
    ensures !old(tx.aborted) ==> tx.Blames(old(tx.trips), r.Fault()) && (r.Ok? ==> !tx.aborted)
  {
    match body {
      case HoldRpc(_, a, p, amount, c, ttl) =>
        r := Operations.Hold(tx, inp.holdId, a, p, amount, c, inp.now + ttl);
      case CaptureRpc(_, h, amount) =>
        r := Operations.Capture(tx, h, amount, inp.txnId);
      case ReleaseRpc(_, h, reason) =>
        var _ :- Operations.Release(tx, h, reason);
        r := Ok(ReleaseReply);
    }
  }

  /** onUserRegistered: the account, its balance row and, with a positive seed, the welcome deposit. */
  method Provision(tx: Store, user: Option<Uuid>, seed: int, currency: Currency, accountId: Uuid, txnId: Uuid)
    returns (r: Result<Reply>)
    requires Ready(tx.State()) && seed <= MAX
    modifies tx
    ensures Operations.Refines(r, tx.State(), tx.aborted,
      if user.None? then Err(BadPayload)
      else ProvisionSpec(old(tx.State()), accountId, user.value, seed, currency, txnId))
    ensures r.Ok? ==> r.value == NoReply
    ensures !old(tx.aborted) ==> tx.Blames(old(tx.trips), r.Fault()) && (r.Ok? ==> !tx.aborted)
  {
    if user.None? {
      return Err(BadPayload);
    }
    :- tx.InsertAccount(accountId, Account(user.value, currency, Liability));
    :- tx.InsertBalance(accountId);
    assert tx.State() == OpenEffect(old(tx.State()), accountId, user.value, currency);
    if seed > 0 {
      var _ :- Operations.Deposit(tx, accountId, seed, currency, WelcomeOf(user.value), txnId);
    }
    return Ok(NoReply);
  }

  /** onPaymentFailed: releases the orphaned hold, if there is one. */
  method Compensate(tx: Store, payment: Option<Uuid>) returns (r: Result<Reply>)
    requires Ready(tx.State())
    modifies tx
    ensures Operations.Refines(r, tx.State(), tx.aborted,
      if payment.None? then Err(BadPayload) else ReleaseByPaymentSpec(old(tx.State()), payment.value, "compensation"))
    ensures r.Ok? ==> r.value == NoReply
    ensures !old(tx.aborted) ==> tx.Blames(old(tx.trips), r.Fault()) && (r.Ok? ==> !tx.aborted)
  {
    if payment.None? {
      return Err(BadPayload);
    }
    var _ :- Operations.ReleaseByPayment(tx, payment.value, "compensation");
    return Ok(NoReply);
  }

  lemma ProcessedIsReady(db: Db, e: Uuid)
    requires Ready(db)
    ensures Ready(db.(processed := db.processed + {e}))
  {
  }

  /** The closure of the consumer's handle: the processed_events gate, then the handler. */
  method RunEvent(tx: Store, body: Body, inp: Inputs) returns (r: Result<Reply>)
    requires body.IsEvent() && Admissible(body) && Ready(tx.State())
    modifies tx
    ensures Performs(old(tx.State()), body, inp, r, tx.State(), tx.aborted)
    ensures !old(tx.aborted) ==> tx.Blames(old(tx.trips), r.Fault()) && (r.Ok? ==> !tx.aborted)
  {
    ghost var before := tx.State();
    var affected :- tx.InsertProcessed(body.eventId);
    if affected == 0 {
      assert tx.State() == before;
      return Ok(NoReply);
    }
    ProcessedIsReady(before, body.eventId);
    assert tx.State() == Gate(before, body);
    match body {
      case UserRegistered(_, u, seed, c) =>
        r := Provision(tx, u, seed, c, inp.accountId, inp.txnId);
      case PaymentFailed(_, p) =>
        r := Compensate(tx, p);
      case OtherEvent(_) =>
        r := Ok(NoReply);
    }
  }

  method Surroundings() returns (inp: Inputs)
    ensures inp.selection == []
  {
    var now: int := *;
    var holdId: Uuid, txnId: Uuid, accountId: Uuid := *, *, *;
    var foreign: Option<Reply> := *;
    inp := Inputs(now, holdId, txnId, accountId, [], foreign);
  }

  method RunBody(tx: Store, body: Body) returns (r: Result<Reply>, inp: Inputs)
    requires Admissible(body) && Ready(tx.State()) && !tx.aborted
    modifies tx
    ensures Performs(old(tx.State()), body, inp, r, tx.State(), tx.aborted)
    ensures Operations.Caught(tx, old(tx.trips), r)
    ensures (r.Ok? && tx.aborted) || r.Fault() == Some(TransactionAborted) ==> body.SweepExpired?
    ensures body.SweepExpired? ==> Selection(old(tx.State()), inp.now, inp.selection)
    ensures r.Ok? && !tx.aborted && body.SweepExpired? ==>
      Picks(old(tx.State()), inp.now, tx.locks(old(tx.trips)), inp.selection)
  {
    hide Strikes, LastFault;
    inp := Surroundings();
    if body.IsRpc() {
      r := RunRpc(tx, body, inp);
    } else if body.IsEvent() {
      r := RunEvent(tx, body, inp);
    } else {
      var swept, ids := Operations.Sweep(tx, inp.now);
      inp := inp.(selection := ids);
      r := if swept.Ok? then Ok(SweepReply(swept.value)) else Err(swept.error);
    }
    LastFaultIsReal(tx.faults, tx.trips);
  }

  /** One transaction: it either commits the whole meaning of its body or leaves no trace. */
  ghost predicate Atomic(before: Db, body: Body, inp: Inputs, r: Result<Reply>, after: Db, committed: bool) {
    && (committed ==> Perform(before, body, inp).Ok? && after == Perform(before, body, inp).value.db)
    && (!committed ==> after == before)
    && (r.Ok? ==> committed && r.value == Perform(before, body, inp).value.reply)
    && (r.Err? && committed ==> r.error == ConnectionLost)
    && (r.Err? && !r.error.Transient() ==> Perform(before, body, inp) == Err(r.error))
  }

  /** One attempt: the round trips it made, and its answer. */
  datatype Try = Try(from: nat, to: nat, answer: Result<Reply>)

  /**
   * A failure of the infrastructure is reported if and only if one struck the attempt, and then it is that one.
   * Only in a sweep can the statement after it be the one whose failure is reported.
   */
  ghost predicate Explained(faults: nat -> Option<Error>, sweep: bool, t: Try) {
    && t.from <= t.to
    && match t.answer.Fault()
       case None => Strikes(faults, t.to) == Strikes(faults, t.from)
       case Some(e) =>
         && Strikes(faults, t.to) == Strikes(faults, t.from) + 1
         && (LastFault(faults, t.to) == Some(e) || (e.TransactionAborted? && sweep))
  }

  /** pgx.BeginTxFunc. The acknowledgement of a commit that took place can still be lost. */
  method Transaction(tx: Store, body: Body) returns (r: Result<Reply>, inp: Inputs, committed: bool)
    requires Admissible(body) && Ready(tx.State()) && !tx.aborted
    modifies tx
    ensures !tx.aborted && Atomic(old(tx.State()), body, inp, r, tx.State(), committed)
    ensures Explained(tx.faults, body.SweepExpired?, Try(old(tx.trips), tx.trips, r)) && old(tx.trips) <= tx.trips
    ensures body.SweepExpired? ==> Selection(old(tx.State()), inp.now, inp.selection)
    ensures r.Ok? && body.SweepExpired? ==>
      Picks(old(tx.State()), inp.now, tx.locks(old(tx.trips) + 1), inp.selection)
  {
    hide Strikes, LastFault, Perform, Picks, Ready;
    committed := false;
    var saved := tx.State();
    var begun := tx.RoundTrip();
    if begun.Fail? {
      tx.Restore(saved);
      inp := Surroundings();
      return Err(begun.error), inp, false;
    }
    assert tx.trips == old(tx.trips) + 1;
    r, inp := RunBody(tx, body);
    if r.Err? {
      tx.Restore(saved);
      return;
    }
    var acknowledged := tx.RoundTrip();
    if acknowledged.Pass? {
      committed := true;
      return;
    }
    r := Err(acknowledged.error);
    var lost: bool := *;
    committed := lost && acknowledged.error.ConnectionLost?;
    if committed {
      tx.aborted := false;
    } else {
      tx.Restore(saved);
    }
  }

  lemma AtomicIsStep(before: Db, body: Body, inp: Inputs, r: Result<Reply>, after: Db, committed: bool)
    requires Atomic(before, body, inp, r, after, committed)
    ensures after == Step(before, Attempt(body, inp, committed))
  {
  }

  /** The transactions of other clients, replicas and workers that commit between two attempts. */
  method Others(tx: Store) returns (ghost run: seq<Attempt>)
    requires Inv(tx.State()) && !tx.aborted
    modifies tx
    ensures AdmissibleRun(run) && tx.State() == Run(old(tx.State()), run)
    ensures Inv(tx.State()) && !tx.aborted && old(tx.trips) <= tx.trips
  {
    hide Inv;
    run := [];
    ghost var start := tx.State();
    var n: int := *;
    for i := 0 to if n < 0 then 0 else n
      invariant AdmissibleRun(run) && tx.State() == Run(start, run)
      invariant Inv(tx.State()) && !tx.aborted && old(tx.trips) <= tx.trips
    {
      var body: Body := *;
      if Admissible(body) {
        ghost var before := tx.State();
        InvReady(before);
        var r, inp, committed := Transaction(tx, body);
        AtomicIsStep(before, body, inp, r, tx.State(), committed);
        StepKeepsInv(before, Attempt(body, inp, committed));
        RunSnoc(start, run, Attempt(body, inp, committed));
        run := run + [Attempt(body, inp, committed)];
      }
    }
  }

  const MAX_ATTEMPTS: nat := 5

  /** How a call of InTx ends, given what others committed before its last attempt. */
  ghost predicate Outcome(start: Db, before: seq<Attempt>, body: Body, inp: Inputs, r: Result<Reply>, after: Db,
                          commits: nat) {
    && AdmissibleRun(before)
    && commits <= 1
    && (r.Ok? ==> commits == 1)
    && var at := Run(start, before);
       Atomic(at, body, inp, if r == Err(RetriesExhausted) then Err(Serialization) else r, after, commits == 1)
  }

  /**
   * The attempts of one call. Whichever ends in a serialization failure is followed by another until there were
   * five; the answer is that of the last one, or RetriesExhausted if that too was a serialization failure.
   */
  ghost predicate Attempted(faults: nat -> Option<Error>, sweep: bool, from: nat, tries: seq<Try>, to: nat,
                            r: Result<Reply>) {
    && 1 <= |tries| <= MAX_ATTEMPTS
    && tries[0].from == from && tries[|tries| - 1].to == to
    && (forall k :: 0 <= k < |tries| ==> Explained(faults, sweep, tries[k]))
    && (forall k :: 0 <= k < |tries| - 1 ==> Retried(tries[k].answer) && tries[k].to <= tries[k + 1].from)
    && var last := tries[|tries| - 1].answer;
       if Retried(last) then |tries| == MAX_ATTEMPTS && r == Err(RetriesExhausted) else r == last
  }

  /** A serialization failure, and no other answer, calls for another attempt. */
  predicate Retried(answer: Result<Reply>) {
    answer == Err(Serialization)
  }

  /** The attempts so far, all of them ended by a serialization failure. */
  ghost predicate Trying(faults: nat -> Option<Error>, sweep: bool, from: nat, tries: seq<Try>, to: nat) {
    && |tries| <= MAX_ATTEMPTS
    && (if tries == [] then to == from else tries[0].from == from && tries[|tries| - 1].to <= to)
    && (forall k :: 0 <= k < |tries| ==> Explained(faults, sweep, tries[k]) && Retried(tries[k].answer))
    && (forall k :: 0 <= k < |tries| - 1 ==> tries[k].to <= tries[k + 1].from)
  }

  /** All attempts are made, and the last one too was a serialization failure. */
  ghost predicate Exhausted(tx: Store, from: nat, at: Db, body: Body, inp: Inputs, tries: seq<Try>)
    reads tx
  {
    && Attempted(tx.faults, body.SweepExpired?, from, tries, tx.trips, Err(RetriesExhausted))
    && Atomic(at, body, inp, Err(Serialization), tx.State(), false)
    && (body.SweepExpired? ==> Selection(at, inp.now, inp.selection))
  }

  lemma TryingNone(faults: nat -> Option<Error>, sweep: bool, from: nat)
    ensures Trying(faults, sweep, from, [], from)
  {
  }

  lemma AnotherTry(faults: nat -> Option<Error>, sweep: bool, from: nat, tries: seq<Try>, t: Try, to: nat)
    requires Trying(faults, sweep, from, tries, t.from) && |tries| < MAX_ATTEMPTS
    requires Explained(faults, sweep, t) && t.from <= t.to <= to
    ensures Retried(t.answer) ==> Trying(faults, sweep, from, tries + [t], to)
    ensures Retried(t.answer) && |tries| == MAX_ATTEMPTS - 1 ==>
      Attempted(faults, sweep, from, tries + [t], t.to, Err(RetriesExhausted))
    ensures !Retried(t.answer) ==> Attempted(faults, sweep, from, tries + [t], t.to, t.answer)
  {
    hide Explained;
  }

  method InTx(tx: Store, body: Body)
    returns (r: Result<Reply>, inp: Inputs, ghost tries: seq<Try>, commits: nat, ghost before: seq<Attempt>)
    requires Admissible(body) && Inv(tx.State()) && !tx.aborted
    modifies tx
    ensures Attempted(tx.faults, body.SweepExpired?, old(tx.trips), tries, tx.trips, r) && tries != []
    ensures Outcome(old(tx.State()), before, body, inp, r, tx.State(), commits)
    ensures |tries| < MAX_ATTEMPTS ==> Atomic(Run(old(tx.State()), before), body, inp, r, tx.State(), commits == 1)
    ensures body.SweepExpired? ==> Selection(Run(old(tx.State()), before), inp.now, inp.selection)
    ensures r.Ok? && body.SweepExpired? ==>
      Picks(Run(old(tx.State()), before), inp.now, tx.locks(tries[|tries| - 1].from + 1), inp.selection)
    ensures Inv(tx.State()) && !tx.aborted
  {
    hide Inv, Picks, Selection, Explained, Trying, Attempted, Step, Perform, Ready, Run;
    ghost var start := tx.State();
    before, tries, commits := [], [], 0;
    inp := Surroundings();
    TryingNone(tx.faults, body.SweepExpired?, tx.trips);
    RunNone(start);
    for attempt := 0 to MAX_ATTEMPTS
      invariant |tries| == attempt && commits == 0
      invariant attempt < MAX_ATTEMPTS ==> Trying(tx.faults, body.SweepExpired?, old(tx.trips), tries, tx.trips)
      invariant attempt == MAX_ATTEMPTS ==> Exhausted(tx, old(tx.trips), Run(start, before), body, inp, tries)
      invariant AdmissibleRun(before)
      invariant attempt < MAX_ATTEMPTS ==> tx.State() == Run(start, before)
      invariant Inv(tx.State()) && !tx.aborted
    {
      ghost var at, from := tx.State(), tx.trips;
      InvReady(at);
      var committed;
      r, inp, committed := Transaction(tx, body);
      AtomicIsStep(at, body, inp, r, tx.State(), committed);
      StepKeepsInv(at, Attempt(body, inp, committed));
      ghost var t := Try(from, tx.trips, r);
      AnotherTry(tx.faults, body.SweepExpired?, old(tx.trips), tries, t, t.to);
      if r.Ok? || !r.error.Retryable() {
        tries, commits := tries + [t], if committed then 1 else 0;
        return;
      }
      if attempt < MAX_ATTEMPTS - 1 {
        ghost var run := Others(tx);
        AnotherTry(tx.faults, body.SweepExpired?, old(tx.trips), tries, t, tx.trips);
        RunConcat(start, before, run);
        before := before + run;
      }
      tries := tries + [t];
    }
    r := Err(RetriesExhausted);
  }
}
