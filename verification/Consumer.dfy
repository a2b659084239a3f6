/** internal/consumer/consumer.go: exactly-once handling of redelivered events, with a dead-letter queue. */
module Consumer {
  import opened Int64
  import opened Schema
  import opened Effects
  import opened Invariants
  import opened Machine
  import opened History
  import opened Requests
  import opened Safety
  import opened Store
  import opened Transactions
  import Accounts
  import Idempotency

  datatype Payload =
    | Registered(user: Option<Uuid>)
    | PayFailed(payment: Option<Uuid>)
    | Foreign

  /** A Kafka record: what its frame, its schema check and its envelope amount to. */
  datatype Message =
    | Unreadable
    | BadEventId(payload: Payload)
    | Envelope(eventId: Uuid, payload: Payload)

  /** The answer of the schema registry when a record is validated. */
  datatype Verdict = Conforms | Violates | Unavailable

  datatype Handling = Handled | Poison | Failed

  const CONSUMER_ATTEMPTS: nat := 3
  const DEFAULT_CURRENCY: Currency := USD

  /** What becomes of a record handed to the dead-letter producer. */
  datatype Publishing = Acknowledged | StoredOnly | Lost

  // What an event is for

  /** The event, if it is new, has had its effect and is recorded. One whose payload lacks its id never gets there. */
  ghost predicate EventHandled(before: Db, after: Db, eventId: Uuid, payload: Payload, seed: int, a: Uuid, t: Uuid) {
    if eventId in before.processed then after == before
    else
      && after.processed == before.processed + {eventId}
      && match payload
         case Registered(user) => user.Some? && AccountOpened(before, after, a, user.value, seed, USD, t)
         case PayFailed(payment) => payment.Some? && PaymentCompensated(before, after, payment.value)
         case Foreign => SameMoney(before, after) && after.responses == before.responses
  }

  /** Why an event cannot be handled: only for what is in the payload, or for a second account or an overflow. */
  ghost predicate EventRefused(db: Db, eventId: Uuid, payload: Payload, seed: int, a: Uuid, t: Uuid, e: Error) {
    && eventId !in db.processed
    && match payload
       case Registered(None) => e == BadPayload
       case Registered(Some(user)) =>
         && e == Constraint
         && (|| a in db.accounts
             || (&& seed > 0
                 && (|| KeyUsed(db.transactions, WelcomeOf(user)) || t in db.transactions
                     || (Settlement(USD) in db.balances && MAX < db.balances[Settlement(USD)].available + seed))))
       case PayFailed(payment) => payment.None? && e == BadPayload
       case Foreign => false
  }

  /** The event is handled or refused; or the answer says nothing, and it is handled or untouched. */
  ghost predicate EventSettled(before: Db, after: Db, eventId: Uuid, payload: Payload, seed: int, a: Uuid, t: Uuid,
                               r: Result<Reply>) {
    if Unsettled(r) then after == before || EventHandled(before, after, eventId, payload, seed, a, t)
    else if r.Ok? then EventHandled(before, after, eventId, payload, seed, a, t)
    else after == before && EventRefused(before, eventId, payload, seed, a, t, r.error)
  }

  function BodyFor(m: Message, seed: int): Body
    requires m.Envelope?
  {
    match m.payload
    case Registered(user) => UserRegistered(m.eventId, user, seed, DEFAULT_CURRENCY)
    case PayFailed(payment) => PaymentFailed(m.eventId, payment)
    case Foreign => OtherEvent(m.eventId)
  }

  lemma RegistrationMeans(db: Db, u: Uuid, seed: int, a: Uuid, t: Uuid)
    requires Inv(db)
    ensures Tables(db) && Settlement(USD) in db.balances
    ensures match ProvisionSpec(db, a, u, seed, USD, t)
            case Ok(after) => AccountOpened(db, after, a, u, seed, USD, t) && after.processed == db.processed
            case Err(e) =>
              && e == Constraint
              && (|| a in db.accounts
                  || (&& seed > 0
                      && (|| KeyUsed(db.transactions, WelcomeOf(u)) || t in db.transactions
                          || MAX < db.balances[Settlement(USD)].available + seed)))
  {
    hide Inv, AccountOpened;
    Accounts.InvProvisions(db);
    InvHolds(db);
    Accounts.ProvisionIff(db, a, u, seed, USD, t);
    if ProvisionSpec(db, a, u, seed, USD, t).Ok? {
      OpenedWithSeed(db, a, u, seed, USD, t);
    }
  }

  lemma RegisteredMeans(db: Db, eventId: Uuid, user: Option<Uuid>, seed: int, inp: Inputs)
    requires Inv(db) && eventId !in db.processed
    ensures var (after, r) := Committed(db, UserRegistered(eventId, user, seed, DEFAULT_CURRENCY), inp);
      if r.Ok? then EventHandled(db, after, eventId, Registered(user), seed, inp.accountId, inp.txnId)
      else after == db && EventRefused(db, eventId, Registered(user), seed, inp.accountId, inp.txnId, r.error)
  {
    hide Inv, ProvisionSpec, AccountOpened, KeyUsed;
    InvTables(db);
    var gated := db.(processed := db.processed + {eventId});
    SameKeepsInv(db, gated);
    if user.Some? {
      RegistrationMeans(gated, user.value, seed, inp.accountId, inp.txnId);
      var r := ProvisionSpec(gated, inp.accountId, user.value, seed, USD, inp.txnId);
      if r.Ok? {
        OpeningIgnoresGate(db, gated, r.value, inp.accountId, user.value, seed, inp.txnId);
      }
    }
  }

  lemma OpeningIgnoresGate(db: Db, gated: Db, after: Db, a: Uuid, u: Uuid, seed: int, t: Uuid)
    requires gated == db.(processed := gated.processed) && AccountOpened(gated, after, a, u, seed, USD, t)
    ensures AccountOpened(db, after, a, u, seed, USD, t)
  {
  }

  lemma PaymentFailedMeans(db: Db, eventId: Uuid, payment: Option<Uuid>, seed: int, inp: Inputs)
    requires Inv(db) && eventId !in db.processed
    ensures var (after, r) := Committed(db, PaymentFailed(eventId, payment), inp);
      if r.Ok? then EventHandled(db, after, eventId, PayFailed(payment), seed, inp.accountId, inp.txnId)
      else after == db && EventRefused(db, eventId, PayFailed(payment), seed, inp.accountId, inp.txnId, r.error)
  {
    hide Inv, ReleaseByPaymentSpec, HoldReleased;
    InvTables(db);
    var gated := db.(processed := db.processed + {eventId});
    SameKeepsInv(db, gated);
    if payment.Some? {
      CompensationMeans(gated, payment.value);
      var after := ReleaseByPaymentSpec(gated, payment.value, "compensation").value;
      CompensationIgnoresGate(db, gated, after, payment.value);
    }
  }

  lemma CompensationIgnoresGate(db: Db, gated: Db, after: Db, payment: Uuid)
    requires gated == db.(processed := gated.processed) && PaymentCompensated(gated, after, payment)
    ensures PaymentCompensated(db, after, payment)
  {
    if h :| HoldReleased(gated, after, h, "compensation") && gated.holds[h].paymentId == payment {
      assert HoldReleased(db, after, h, "compensation") && db.holds[h].paymentId == payment;
    }
  }

  lemma EventMeans(db: Db, m: Message, seed: int, inp: Inputs)
    requires Inv(db) && m.Envelope?
    ensures var (after, r) := Committed(db, BodyFor(m, seed), inp);
      if r.Ok? then EventHandled(db, after, m.eventId, m.payload, seed, inp.accountId, inp.txnId)
      else after == db && EventRefused(db, m.eventId, m.payload, seed, inp.accountId, inp.txnId, r.error)
  {
    hide Inv, Money, AccountOpened, PaymentCompensated, EventRefused;
    InvTables(db);
    if m.eventId !in db.processed {
      match m.payload
      case Registered(user) => RegisteredMeans(db, m.eventId, user, seed, inp);
      case PayFailed(payment) => PaymentFailedMeans(db, m.eventId, payment, seed, inp);
      case Foreign => ForeignMeans(db, m.eventId, seed, inp);
    }
  }

  lemma ForeignMeans(db: Db, eventId: Uuid, seed: int, inp: Inputs)
    requires Tables(db) && eventId !in db.processed
    ensures var (after, r) := Committed(db, OtherEvent(eventId), inp);
      r.Ok? && EventHandled(db, after, eventId, Foreign, seed, inp.accountId, inp.txnId)
  {
  }

  lemma EventOutcome(start: Db, before: seq<Attempt>, m: Message, seed: int, inp: Inputs, r: Result<Reply>, after: Db,
                     commits: nat)
    requires Inv(Run(start, before)) && m.Envelope?
    requires Outcome(start, before, BodyFor(m, seed), inp, r, after, commits)
    ensures EventSettled(Run(start, before), after, m.eventId, m.payload, seed, inp.accountId, inp.txnId, r)
  {
    hide Inv, Perform, EventHandled, EventRefused;
    EventMeans(Run(start, before), m, seed, inp);
  }

  lemma SettledIsHandled(before: Db, after: Db, m: Message, seed: int, inp: Inputs, r: Result<Reply>)
    requires m.Envelope? && r.Ok?
    requires EventSettled(before, after, m.eventId, m.payload, seed, inp.accountId, inp.txnId, r)
    ensures EventHandled(before, after, m.eventId, m.payload, seed, inp.accountId, inp.txnId)
  {
  }

  // Handling and retrying one record

  /** One handling: the last answer of the registry, the attempts of its transaction, and how it ended. */
  datatype Case = Case(verdict: Verdict, tries: seq<Try>, outcome: Handling)

  /** The answer that the attempts of a transaction lead to. */
  function AnswerOf(tries: seq<Try>): Result<Reply>
    requires tries != []
  {
    var last := tries[|tries| - 1].answer;
    if Retried(last) then Err(RetriesExhausted) else last
  }

  /** What the registry's last answer means, and what the transaction's answer does. */
  ghost predicate Judged(faults: nat -> Option<Error>, m: Message, c: Case) {
    match c.verdict
    case Unavailable => c.outcome.Failed? && c.tries == []
    case Violates => c.outcome.Poison? && c.tries == []
    case Conforms =>
      if m.Envelope?
      then && c.tries != []
           && Attempted(faults, false, c.tries[0].from, c.tries, c.tries[|c.tries| - 1].to, AnswerOf(c.tries))
           && c.outcome == if AnswerOf(c.tries).Ok? then Handled else Failed
      else c.outcome.Poison? && c.tries == []
  }

  ghost predicate AllJudged(faults: nat -> Option<Error>, m: Message, cases: seq<Case>) {
    forall i :: 0 <= i < |cases| ==> Judged(faults, m, cases[i])
  }

  /** Only an ordinary failure is tried again, up to the limit. */
  ghost predicate Persistent(cases: seq<Case>) {
    && 1 <= |cases| <= CONSUMER_ATTEMPTS
    && (forall i :: 0 <= i < |cases| - 1 ==> cases[i].outcome.Failed?)
    && (cases[|cases| - 1].outcome.Failed? ==> |cases| == CONSUMER_ATTEMPTS)
  }

  ghost predicate CutOff(cases: seq<Case>) {
    |cases| == CONSUMER_ATTEMPTS && forall i :: 0 <= i < |cases| ==> cases[i].verdict.Unavailable?
  }

  /**
   * A record that the registry never answered for has used up its three handlings, each cut off by a shutdown
   * in an outage, and goes to the dead-letter queue as a failure. A record that cannot be read ends as a failure
   * exactly then.
   */
  lemma OutageDeadLettersIff(faults: nat -> Option<Error>, m: Message, cases: seq<Case>)
    requires Persistent(cases) && AllJudged(faults, m, cases)
    ensures (forall i :: 0 <= i < |cases| ==> cases[i].verdict.Unavailable?) <==> CutOff(cases)
    ensures CutOff(cases) ==> cases[|cases| - 1].outcome.Failed?
    ensures !m.Envelope? ==> (cases[|cases| - 1].outcome.Failed? <==> CutOff(cases))
  {
    var last := |cases| - 1;
    assert Judged(faults, m, cases[last]);
    if !m.Envelope? && cases[last].outcome.Failed? {
      forall i | 0 <= i < |cases| ensures cases[i].verdict.Unavailable? {
        assert Judged(faults, m, cases[i]) && cases[i].outcome.Failed?;
      }
    }
  }

  class Consumer {
    const store: Store
    const seed: int
    /** What the registry answers to each validation request. */
    const registry: nat -> Verdict
    /** The validation request after which the process is shut down, and waits no longer. */
    const shutdown: nat
    /** What becomes of each record that is handed to the dead-letter producer. */
    const broker: nat -> Publishing
    /** The validation requests made so far. */
    var asked: nat
    /** The records handed to the dead-letter producer, and those that have reached the topic. */
    var offered: seq<Message>
    var dlq: seq<Message>

    constructor (store: Store, seed: int, registry: nat -> Verdict, shutdown: nat, broker: nat -> Publishing)
      ensures this.store == store && this.seed == seed && this.registry == registry
      ensures this.shutdown == shutdown && this.broker == broker
      ensures asked == 0 && offered == [] && dlq == []
    {
      this.store, this.seed, this.registry, this.shutdown, this.broker := store, seed, registry, shutdown, broker;
      asked, offered, dlq := 0, [], [];
    }

    /** Between the two states of the store lies a run: this consumer's attempts among those of others. */
    ghost predicate Ran(before: Db, run: seq<Attempt>, after: Db) {
      AdmissibleRun(run) && after == Run(before, run)
    }

    /** The run ends with the committed attempt for this very record, which had the effect the event is for. */
    ghost predicate Delivered(before: Db, run: seq<Attempt>, m: Message) {
      && m.Envelope? && run != []
      && var at, own := Run(before, run[..|run| - 1]), run[|run| - 1];
      && TakesEffect(at, own)
      && EventHandled(at, Run(before, run), m.eventId, m.payload, seed, own.inp.accountId, own.inp.txnId)
    }

    lemma DeliveredLater(before: Db, run: seq<Attempt>, more: seq<Attempt>, m: Message)
      requires Delivered(Run(before, run), more, m)
      ensures Delivered(before, run + more, m)
    {
      hide EventHandled, TakesEffect, Run;
      RunConcat(before, run, more);
      RunConcat(before, run, more[..|more| - 1]);
      assert (run + more)[..|run + more| - 1] == run + more[..|more| - 1];
    }

    /** Waits until the registry answers, or until the process is shut down. */
    method Validate() returns (v: Verdict)
      modifies this`asked
      ensures old(asked) < asked && v == registry(asked - 1)
      ensures forall i :: old(asked) <= i < asked - 1 ==> registry(i).Unavailable?
      ensures v.Unavailable? ==> shutdown < asked
    {
      v := registry(asked);
      asked := asked + 1;
      while v.Unavailable? && asked <= shutdown
        invariant old(asked) < asked && v == registry(asked - 1)
        invariant forall i :: old(asked) <= i < asked - 1 ==> registry(i).Unavailable?
      {
        v := registry(asked);
        asked := asked + 1;
      }
    }

    /** The transaction of handle: the gate and the event's own work. */
    method Process(m: Message) returns (r: Result<Reply>, ghost run: seq<Attempt>, ghost tries: seq<Try>)
      requires Inv(store.State()) && !store.aborted && seed <= MAX && m.Envelope?
      modifies store
      ensures Inv(store.State()) && !store.aborted
      ensures tries != [] && r == AnswerOf(tries)
      ensures tries[0].from == old(store.trips) && tries[|tries| - 1].to == store.trips
      ensures Attempted(store.faults, false, tries[0].from, tries, tries[|tries| - 1].to, r)
      ensures Ran(old(store.State()), run, store.State()) && run != []
      ensures var at, inp := Run(old(store.State()), run[..|run| - 1]), run[|run| - 1].inp;
        EventSettled(at, store.State(), m.eventId, m.payload, seed, inp.accountId, inp.txnId, r)
      ensures r.Ok? ==> TakesEffect(Run(old(store.State()), run[..|run| - 1]), run[|run| - 1])
      ensures r.Ok? ==> m.eventId in store.processed
    {
      hide Inv, EventSettled, Attempted, EventHandled, Perform;
      ghost var start := store.State();
      var body := BodyFor(m, seed);
      ghost var before;
      var inp, commits;
      r, inp, tries, commits, before := InTx(store, body);
      AnswerIsOfTries(store.faults, old(store.trips), tries, store.trips, r);
      ghost var own := Attempt(body, inp, commits == 1);
      RunSnoc(start, before, own);
      run := before + [own];
      assert run[..|run| - 1] == before;
      RunKeepsInv(start, before);
      EventOutcome(start, before, m, seed, inp, r, store.State(), commits);
      if r.Ok? {
        Idempotency.EffectIsSeen(Run(start, before), own, body);
      }
    }

    /** Without an answer of the registry the record is held. */
    method Handle(m: Message) returns (h: Handling, ghost run: seq<Attempt>, ghost c: Case)
      requires Inv(store.State()) && !store.aborted && seed <= MAX
      modifies this`asked, store
      ensures Inv(store.State()) && !store.aborted
      ensures c.outcome == h && Judged(store.faults, m, c)
      ensures old(asked) < asked && c.verdict == registry(asked - 1) && (c.verdict.Unavailable? ==> shutdown < asked)
      ensures Ran(old(store.State()), run, store.State())
      ensures run != [] <==> c.tries != []
      ensures c.tries != [] ==> c.tries[0].from == old(store.trips) && c.tries[|c.tries| - 1].to == store.trips
      ensures run != [] ==>
        var at, inp := Run(old(store.State()), run[..|run| - 1]), run[|run| - 1].inp;
        && m.Envelope?
        && EventSettled(at, store.State(), m.eventId, m.payload, seed, inp.accountId, inp.txnId, AnswerOf(c.tries))
      ensures h.Handled? ==> Delivered(old(store.State()), run, m) && m.eventId in store.processed
    {
      hide Inv, EventSettled, Attempted, EventHandled, Run, TakesEffect;
      run := [];
      RunNone(store.State());
      var v := Validate();
      c := Case(v, [], Failed);
      if v.Unavailable? {
        return Failed, run, c;
      }
      if v.Violates? || m.Unreadable? || m.BadEventId? {
        return Poison, run, c.(outcome := Poison);
      }
      ghost var start := store.State();
      var r, more, tries := Process(m);
      run := more;
      h := if r.Err? then Failed else Handled;
      c := Case(v, tries, h);
      if r.Ok? {
        SettledIsHandled(Run(start, run[..|run| - 1]), store.State(), m, seed, run[|run| - 1].inp, r);
      }
    }

    /** Publishing may fail, and may fail after the broker has stored the record. */
    method DeadLetter(m: Message) returns (ok: bool)
      modifies this`dlq, this`offered
      ensures offered == old(offered) + [m]
      ensures ok <==> broker(|old(offered)|).Acknowledged?
      ensures dlq == if broker(|old(offered)|).Lost? then old(dlq) else old(dlq) + [m]
    {
      var fate := broker(|offered|);
      offered := offered + [m];
      if !fate.Lost? {
        dlq := dlq + [m];
      }
      return fate.Acknowledged?;
    }

    /**
     * True means settled: the event is recorded as processed, or the record is in the dead-letter queue.
     * Only poison, or a record that used up its attempts, is sent there. While it waits for the next attempt,
     * others commit.
     */
    method HandleWithRetry(m: Message) returns (settled: bool, ghost run: seq<Attempt>, ghost cases: seq<Case>)
      requires Inv(store.State()) && !store.aborted && seed <= MAX
      modifies this`asked, this`dlq, this`offered, store
      ensures Inv(store.State()) && !store.aborted
      ensures Ran(old(store.State()), run, store.State())
      ensures Persistent(cases) && AllJudged(store.faults, m, cases)
      ensures (exists i :: 0 <= i < |cases| && cases[i].verdict.Unavailable?) ==> shutdown < asked
      ensures cases[|cases| - 1].outcome.Handled? ==>
        && settled && offered == old(offered) && dlq == old(dlq)
        && Delivered(old(store.State()), run, m) && m.eventId in store.processed
      ensures !cases[|cases| - 1].outcome.Handled? ==>
        && offered == old(offered) + [m]
        && (settled <==> broker(|old(offered)|).Acknowledged?)
        && dlq == if broker(|old(offered)|).Lost? then old(dlq) else old(dlq) + [m]
      ensures |cases| == 1 && cases[0].outcome.Poison? ==> store.State() == old(store.State())
    {
      hide Inv, Judged, EventHandled, EventSettled, Delivered, Run;
      run, cases := [], [];
      ghost var start := store.State();
      RunNone(start);
      var attempt := 1;
      while attempt <= CONSUMER_ATTEMPTS
        invariant Inv(store.State()) && !store.aborted
        invariant Ran(start, run, store.State())
        invariant dlq == old(dlq) && offered == old(offered)
        invariant AllJudged(store.faults, m, cases)
        invariant |cases| == attempt - 1 <= CONSUMER_ATTEMPTS
        invariant forall i :: 0 <= i < |cases| ==> cases[i].outcome.Failed?
        invariant forall i :: 0 <= i < |cases| && cases[i].verdict.Unavailable? ==> shutdown < asked
        invariant cases == [] ==> store.State() == start
      {
        ghost var middle := store.State();
        var h, more, c := Handle(m);
        RunConcat(start, run, more);
        if h.Handled? {
          DeliveredLater(start, run, more, m);
        }
        run, cases := run + more, cases + [c];
        if h.Handled? {
          return true, run, cases;
        }
        if h.Poison? {
          PoisonIsUntouched(store.faults, m, c);
          settled := DeadLetter(m);
          return settled, run, cases;
        }
        ghost var others := Others(store);
        RunConcat(start, run, others);
        run := run + others;
        attempt := attempt + 1;
      }
      settled := DeadLetter(m);
    }
  }

  lemma PoisonIsUntouched(faults: nat -> Option<Error>, m: Message, c: Case)
    requires Judged(faults, m, c) && c.outcome.Poison?
    ensures c.tries == []
  {
  }

  lemma AnswerIsOfTries(faults: nat -> Option<Error>, from: nat, tries: seq<Try>, to: nat, r: Result<Reply>)
    requires Attempted(faults, false, from, tries, to, r)
    ensures tries != [] && tries[0].from == from && tries[|tries| - 1].to == to && r == AnswerOf(tries)
  {
  }

  /** Once an event is recorded, every redelivery of it is acknowledged and changes nothing. */
  lemma RedeliveredEventIsSilent(db: Db, a: Attempt)
    requires Tables(db) && a.body.IsEvent() && a.body.eventId in db.processed
    ensures Perform(db, a.body, a.inp) == Ok(Done(db, NoReply)) && Step(db, a) == db
  {
  }

  /** An event that fails, for whatever reason, is not recorded: recording and effect commit together. */
  lemma RecordedIffHandled(db: Db, a: Attempt)
    requires a.body.IsEvent() && a.body.eventId !in db.processed
    ensures a.body.eventId in Step(db, a).processed <==> TakesEffect(db, a)
  {
    if TakesEffect(db, a) {
      MoneyKeepsGates(Gate(db, a.body), a.body, a.inp);
    }
  }
}
