/**
 * The service as a state machine. A Body is the closure that the source hands to InTx; Perform is its
 * atomic meaning, the idempotency gates of internal/grpcapi and internal/consumer included; a run is
 * any interleaving of attempts, each of which commits or does not.
 */
module Machine {
  import opened Int64
  import opened Schema
  import opened Effects

  datatype Body =
    | HoldRpc(requestId: string, accountId: Uuid, paymentId: Uuid, amount: int, currency: Currency, ttl: int)
    | CaptureRpc(requestId: string, holdId: Uuid, amount: int)
    | ReleaseRpc(requestId: string, holdId: Uuid, reason: string)
    | UserRegistered(eventId: Uuid, user: Option<Uuid>, seed: int, currency: Currency)
    | PaymentFailed(eventId: Uuid, payment: Option<Uuid>)
    | OtherEvent(eventId: Uuid)
    | SweepExpired
  {
    predicate IsRpc() {
      HoldRpc? || CaptureRpc? || ReleaseRpc?
    }

    predicate IsEvent() {
      UserRegistered? || PaymentFailed? || OtherEvent?
    }

    function Rpc(): RpcMethod
      requires IsRpc()
    {
      if HoldRpc? then HoldFunds else if CaptureRpc? then CaptureFunds else ReleaseFunds
    }
  }

  /**
   * What an attempt takes from its surroundings: the clock, new uuids, the rows a sweep may lock, and
   * what comes of decoding a stored response of another method.
   */
  datatype Inputs = Inputs(now: int, holdId: Uuid, txnId: Uuid, accountId: Uuid,
                           selection: seq<Uuid>, foreign: Option<Reply>)

  datatype Done = Done(db: Db, reply: Reply)

  /** The money effect of a body, without its idempotency gate. */
  ghost function Money(db: Db, body: Body, inp: Inputs): Result<Db>
    requires Tables(db)
  {
    match body
    case HoldRpc(_, a, p, amount, c, ttl) => HoldSpec(db, inp.holdId, a, p, amount, c, inp.now + ttl)
    case CaptureRpc(_, h, amount) => CaptureSpec(db, h, amount, inp.txnId)
    case ReleaseRpc(_, h, reason) => ReleaseSpec(db, h, reason)
    case UserRegistered(_, u, seed, c) =>
      if u.None? then Err(BadPayload) else ProvisionSpec(db, inp.accountId, u.value, seed, c, inp.txnId)
    case PaymentFailed(_, p) =>
      if p.None? then Err(BadPayload) else ReleaseByPaymentSpec(db, p.value, "compensation")
    case OtherEvent(_) => Ok(db)
    case SweepExpired =>
      if Selection(db, inp.now, inp.selection) then SweepSpec(db, inp.selection) else Err(BadSelection)
  }

  ghost function ReplyOf(body: Body, inp: Inputs, after: Db): Reply {
    match body
    case HoldRpc(_, a, _, _, c, _) =>
      HoldReply(inp.holdId, if a in after.balances then after.balances[a].available else 0, c)
    case CaptureRpc(_, _, _) => CaptureReply(inp.txnId)
    case ReleaseRpc(_, _, _) => ReleaseReply
    case SweepExpired => SweepReply(|inp.selection|)
    case _ => NoReply
  }

  /** Has the request or event already taken effect? */
  ghost predicate Seen(db: Db, body: Body) {
    (body.IsRpc() && body.requestId in db.responses) || (body.IsEvent() && body.eventId in db.processed)
  }

  /** The consumer records the event id before it handles the event. */
  function Gate(db: Db, body: Body): Db {
    if body.IsEvent() then db.(processed := db.processed + {body.eventId}) else db
  }

  /** The gRPC server stores the response after the operation. */
  function Record(db: Db, body: Body, reply: Reply): Db {
    if body.IsRpc() then db.(responses := db.responses[body.requestId := Stored(body.Rpc(), reply)]) else db
  }

  /** A stored response: returned as it is to the same method, decoded as foreign bytes by another. */
  ghost function Replay(db: Db, body: Body, inp: Inputs): Result<Reply>
    requires Seen(db, body)
  {
    if body.IsEvent() then Ok(NoReply)
    else if db.responses[body.requestId].rpc == body.Rpc() then Ok(db.responses[body.requestId].reply)
    else if inp.foreign.Some? then Ok(inp.foreign.value)
    else Err(Undecodable)
  }

  ghost function Perform(db: Db, body: Body, inp: Inputs): Result<Done> {
    if !Tables(db) then Err(Constraint)
    else if Seen(db, body) then
      var reply :- Replay(db, body, inp);
      Ok(Done(db, reply))
    else
      var after :- Money(Gate(db, body), body, inp);
      var reply := ReplyOf(body, inp, after);
      Ok(Done(Record(after, body, reply), reply))
  }

  /** One attempt: it may abort at any statement or at commit; if it commits, its client may never hear. */
  datatype Attempt = Attempt(body: Body, inp: Inputs, commits: bool)

  ghost predicate TakesEffect(db: Db, a: Attempt) {
    a.commits && Perform(db, a.body, a.inp).Ok?
  }

  ghost function Step(db: Db, a: Attempt): Db {
    if TakesEffect(db, a) then Perform(db, a.body, a.inp).value.db else db
  }

  ghost function Run(db: Db, run: seq<Attempt>): Db {
    if run == [] then db else Step(Run(db, run[..|run| - 1]), run[|run| - 1])
  }

  lemma RunNone(db: Db)
    ensures Run(db, []) == db
  {
  }

  lemma RunSnoc(db: Db, run: seq<Attempt>, a: Attempt)
    ensures Run(db, run + [a]) == Step(Run(db, run), a)
  {
    assert (run + [a])[..|run|] == run;
  }

  lemma RunOfTwo(db: Db, a: Attempt, b: Attempt)
    ensures Run(db, [a, b]) == Step(Step(db, a), b)
  {
    hide Step;
    RunSnoc(db, [], a);
    RunSnoc(db, [a], b);
    assert [] + [a] == [a] && [a] + [b] == [a, b];
  }

  lemma {:induction false} RunConcat(db: Db, r: seq<Attempt>, s: seq<Attempt>)
    ensures Run(db, r + s) == Run(Run(db, r), s)
  {
    if s == [] {
      assert r + s == r;
    } else {
      assert r + s == (r + s[..|s| - 1]) + [s[|s| - 1]];
      RunSnoc(db, r + s[..|s| - 1], s[|s| - 1]);
      RunConcat(db, r, s[..|s| - 1]);
    }
  }

  /** Holds are placed on user accounts only; the seed is an int64 in a supported currency. */
  predicate Admissible(body: Body) {
    && (body.HoldRpc? ==> !IsSystem(body.accountId))
    && (body.UserRegistered? ==> Supported(body.currency) && body.seed <= MAX)
  }

  ghost predicate AdmissibleRun(run: seq<Attempt>) {
    forall i :: 0 <= i < |run| ==> Admissible(run[i].body)
  }

  ghost predicate Reachable(db: Db) {
    exists run :: AdmissibleRun(run) && db == Run(Initial(), run)
  }
}
