/** internal/grpcapi/server.go: the three mutating calls, idempotent on the caller's request id. */
module Server {
  import opened Schema
  import opened Effects
  import opened Invariants
  import opened Machine
  import opened Safety
  import opened Requests
  import opened Sweep
  import opened Store
  import opened Transactions

  /** A call that succeeds returns what is stored under its request id, if stored by the same method. */
  ghost predicate Answered(db: Db, requestId: string, rpc: RpcMethod, r: Result<Reply>) {
    r.Ok? ==>
      && requestId in db.responses
      && (db.responses[requestId].rpc == rpc ==> r.value == db.responses[requestId].reply)
  }

  lemma CommittedIsStored(db: Db, a: Attempt)
    requires a.body.IsRpc() && TakesEffect(db, a)
    ensures Answered(Step(db, a), a.body.requestId, a.body.Rpc(), Ok(Perform(db, a.body, a.inp).value.reply))
  {
  }

  /** The call is answered; or it is not, and it did nothing or everything. before is the state others left. */
  ghost predicate HoldSettled(before: Db, after: Db, requestId: string, holdId: Uuid, a: Uuid, payment: Uuid,
                              amount: int, c: Currency, expiresAt: int, r: Result<Reply>) {
    if Unsettled(r)
    then after == before
         || exists reply :: HoldAnswered(before, after, requestId, holdId, a, payment, amount, c, expiresAt, Ok(reply))
    else HoldAnswered(before, after, requestId, holdId, a, payment, amount, c, expiresAt, r)
  }

  lemma HoldOutcome(start: Db, before: seq<Attempt>, requestId: string, a: Uuid, payment: Uuid, amount: int,
                    c: Currency, ttl: int, inp: Inputs, r: Result<Reply>, after: Db, commits: nat)
    requires Inv(Run(start, before))
    requires Outcome(start, before, HoldRpc(requestId, a, payment, amount, c, ttl), inp, r, after, commits)
    ensures AdmissibleRun(before)
    ensures HoldSettled(Run(start, before), after, requestId, inp.holdId, a, payment, amount, c, inp.now + ttl, r)
  {
    hide Inv, Perform, HoldAnswered;
    HoldRpcMeans(Run(start, before), requestId, a, payment, amount, c, ttl, inp);
  }

  ghost predicate CaptureSettled(before: Db, after: Db, requestId: string, h: Uuid, amount: int, t: Uuid,
                                 r: Result<Reply>) {
    if Unsettled(r)
    then after == before || exists reply :: CaptureAnswered(before, after, requestId, h, amount, t, Ok(reply))
    else CaptureAnswered(before, after, requestId, h, amount, t, r)
  }

  lemma CaptureOutcome(start: Db, before: seq<Attempt>, requestId: string, h: Uuid, amount: int, inp: Inputs,
                       r: Result<Reply>, after: Db, commits: nat)
    requires Inv(Run(start, before))
    requires Outcome(start, before, CaptureRpc(requestId, h, amount), inp, r, after, commits)
    ensures AdmissibleRun(before)
    ensures CaptureSettled(Run(start, before), after, requestId, h, amount, inp.txnId, r)
  {
    hide Inv, Perform, CaptureAnswered;
    CaptureRpcMeans(Run(start, before), requestId, h, amount, inp);
  }

  ghost predicate ReleaseSettled(before: Db, after: Db, requestId: string, h: Uuid, reason: string, r: Result<Reply>) {
    if Unsettled(r)
    then after == before || exists reply :: ReleaseAnswered(before, after, requestId, h, reason, Ok(reply))
    else ReleaseAnswered(before, after, requestId, h, reason, r)
  }

  lemma ReleaseOutcome(start: Db, before: seq<Attempt>, requestId: string, h: Uuid, reason: string, inp: Inputs,
                       r: Result<Reply>, after: Db, commits: nat)
    requires Inv(Run(start, before))
    requires Outcome(start, before, ReleaseRpc(requestId, h, reason), inp, r, after, commits)
    ensures AdmissibleRun(before)
    ensures ReleaseSettled(Run(start, before), after, requestId, h, reason, r)
  {
    hide Inv, Perform, ReleaseAnswered;
    ReleaseRpcMeans(Run(start, before), requestId, h, reason, inp);
  }

  /** A sweep under the invariant fails for reasons of the infrastructure only. */
  lemma SweepOutcome(start: Db, before: seq<Attempt>, inp: Inputs, r: Result<Reply>, after: Db, commits: nat)
    requires Inv(Run(start, before)) && Selection(Run(start, before), inp.now, inp.selection)
    requires Outcome(start, before, SweepExpired, inp, r, after, commits)
    ensures var at := Run(start, before);
      && AdmissibleRun(before)
      && (r.Ok? ==> r.value == SweepReply(|inp.selection|))
      && (r.Err? ==> Unsettled(r))
      && (after == at || HoldsExpired(at, after, inp.now, inp.selection))
      && (r.Ok? ==> HoldsExpired(at, after, inp.now, inp.selection))
  {
    hide Inv, SweepSpec, HoldsExpired;
    var at := Run(start, before);
    SweepNeverSticks(at, inp.now, inp.selection);
    SweepMeans(at, inp.now, inp.selection);
  }

  class Server {
    const store: Store
    const holdTtl: int

    constructor (store: Store, holdTtl: int)
      ensures this.store == store && this.holdTtl == holdTtl
    {
      this.store := store;
      this.holdTtl := holdTtl;
    }

    /**
     * The part the calls share. before is what others committed in the meantime, inp what the last attempt
     * took from its surroundings, and tries are the attempts made.
     */
    method Call(body: Body)
      returns (r: Result<Reply>, ghost before: seq<Attempt>, ghost inp: Inputs, ghost commits: nat,
               ghost tries: seq<Try>)
      requires Inv(store.State()) && !store.aborted && Admissible(body) && body.IsRpc()
      modifies store
      ensures Inv(store.State()) && !store.aborted
      ensures Outcome(old(store.State()), before, body, inp, r, store.State(), commits)
      ensures Attempted(store.faults, false, old(store.trips), tries, store.trips, r)
      ensures Inv(Run(old(store.State()), before))
      ensures Answered(store.State(), body.requestId, body.Rpc(), r)
    {
      hide Inv, Perform;
      ghost var start := store.State();
      var taken, count;
      r, taken, tries, count, before := InTx(store, body);
      inp, commits := taken, count;
      RunKeepsInv(start, before);
      if r.Ok? {
        CommittedIsStored(Run(start, before), Attempt(body, inp, true));
      }
    }

    method HoldFunds(requestId: string, accountId: Uuid, paymentId: Uuid, amount: Option<int>, currency: Currency,
                     expiresInSeconds: int)
      returns (r: Result<Reply>, ghost before: seq<Attempt>, ghost inp: Inputs, ghost tries: seq<Try>)
      requires Inv(store.State()) && !store.aborted && !IsSystem(accountId)
      modifies store
      ensures Inv(store.State()) && !store.aborted && AdmissibleRun(before)
      ensures Answered(store.State(), requestId, RpcMethod.HoldFunds, r)
      ensures requestId == "" || amount.None? ==> r == Err(InvalidArgument) && store.State() == old(store.State())
      ensures requestId != "" && amount.Some? ==>
        var lifetime := if expiresInSeconds > 0 then expiresInSeconds else holdTtl;
        HoldSettled(Run(old(store.State()), before), store.State(), requestId, inp.holdId, accountId, paymentId,
                    amount.value, currency, inp.now + lifetime, r)
      ensures requestId != "" && amount.Some? ==>
        Attempted(store.faults, false, old(store.trips), tries, store.trips, r)
    {
      hide Inv, Outcome, HoldSettled;
      before, inp, tries := [], Inputs(0, 0, 0, 0, [], None), [];
      if requestId == "" || amount.None? {
        r := Err(InvalidArgument);
        return;
      }
      var ttl := holdTtl;
      if expiresInSeconds > 0 {
        ttl := expiresInSeconds;
      }
      ghost var start := store.State();
      ghost var commits;
      r, before, inp, commits, tries := Call(HoldRpc(requestId, accountId, paymentId, amount.value, currency, ttl));
      HoldOutcome(start, before, requestId, accountId, paymentId, amount.value, currency, ttl, inp, r, store.State(),
                  commits);
    }

    method CaptureFunds(requestId: string, holdId: Uuid, amount: Option<int>)
      returns (r: Result<Reply>, ghost before: seq<Attempt>, ghost inp: Inputs, ghost tries: seq<Try>)
      requires Inv(store.State()) && !store.aborted
      modifies store
      ensures Inv(store.State()) && !store.aborted && AdmissibleRun(before)
      ensures Answered(store.State(), requestId, RpcMethod.CaptureFunds, r)
      ensures requestId == "" || amount.None? ==> r == Err(InvalidArgument) && store.State() == old(store.State())
      ensures requestId != "" && amount.Some? ==>
        CaptureSettled(Run(old(store.State()), before), store.State(), requestId, holdId, amount.value, inp.txnId, r)
      ensures requestId != "" && amount.Some? ==>
        Attempted(store.faults, false, old(store.trips), tries, store.trips, r)
    {
      hide Inv, Outcome, CaptureSettled;
      before, inp, tries := [], Inputs(0, 0, 0, 0, [], None), [];
      if requestId == "" || amount.None? {
        r := Err(InvalidArgument);
        return;
      }
      ghost var start := store.State();
      ghost var commits;
      r, before, inp, commits, tries := Call(CaptureRpc(requestId, holdId, amount.value));
      CaptureOutcome(start, before, requestId, holdId, amount.value, inp, r, store.State(), commits);
    }

    method ReleaseFunds(requestId: string, holdId: Uuid, reason: string)
      returns (r: Result<Reply>, ghost before: seq<Attempt>, ghost tries: seq<Try>)
      requires Inv(store.State()) && !store.aborted
      modifies store
      ensures Inv(store.State()) && !store.aborted && AdmissibleRun(before)
      ensures Answered(store.State(), requestId, RpcMethod.ReleaseFunds, r)
      ensures requestId == "" ==> r == Err(InvalidArgument) && store.State() == old(store.State())
      ensures requestId != "" ==>
        ReleaseSettled(Run(old(store.State()), before), store.State(), requestId, holdId,
                       if reason == "" then "compensation" else reason, r)
      ensures requestId != "" ==> Attempted(store.faults, false, old(store.trips), tries, store.trips, r)
    {
      hide Inv, Outcome, ReleaseSettled;
      before, tries := [], [];
      if requestId == "" {
        r := Err(InvalidArgument);
        return;
      }
      var why := reason;
      if why == "" {
        why := "compensation";
      }
      ghost var start := store.State();
      ghost var inp, commits;
      r, before, inp, commits, tries := Call(ReleaseRpc(requestId, holdId, why));
      ReleaseOutcome(start, before, requestId, holdId, why, inp, r, store.State(), commits);
    }
  }

  /** The answer of a sweep as InTx gives it. */
  function SweepAnswer(r: Result<nat>): Result<Reply> {
    if r.Ok? then Ok(SweepReply(r.value)) else Err(r.error)
  }

  /**
   * SweepExpiredHolds as its worker calls it. It fails only if the infrastructure does; a committed sweep expires
   * a hundred overdue holds that no one had locked, or all of them, and reports how many.
   */
  method SweepExpiredHolds(store: Store)
    returns (r: Result<nat>, ghost before: seq<Attempt>, ghost inp: Inputs, ghost tries: seq<Try>)
    requires Inv(store.State()) && !store.aborted
    modifies store
    ensures Inv(store.State()) && !store.aborted && AdmissibleRun(before)
    ensures Attempted(store.faults, true, old(store.trips), tries, store.trips, SweepAnswer(r))
    ensures r.Ok? ==>
      var at := Run(old(store.State()), before);
      && HoldsExpired(at, store.State(), inp.now, inp.selection) && r.value == |inp.selection|
      && HundredOrAll(at, inp.now, store.locks(tries[|tries| - 1].from + 1), inp.selection)
    ensures r.Err? ==>
      var at := Run(old(store.State()), before);
      Unsettled(r) && (store.State() == at || HoldsExpired(at, store.State(), inp.now, inp.selection))
    ensures r.Err? && !r.error.ConnectionLost? ==> store.State() == Run(old(store.State()), before)
  {
    hide Inv, HoldsExpired, Picks, HundredOrAll;
    ghost var start := store.State();
    var reply, taken, commits;
    reply, taken, tries, commits, before := InTx(store, SweepExpired);
    inp := taken;
    RunKeepsInv(start, before);
    SweepOutcome(start, before, inp, reply, store.State(), commits);
    match reply {
      case Ok(value) =>
        PicksMeans(Run(start, before), inp.now, store.locks(tries[|tries| - 1].from + 1), inp.selection);
        r := Ok(value.released);
      case Err(e) =>
        r := Err(e);
    }
  }
}
