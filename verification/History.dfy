/** What no step ever undoes: the ledger is append-only, terminal holds stay, records are kept. */
module History {
  import opened Schema
  import opened Effects
  import opened Machine
  import opened Safety
  import opened Sweep

  /** A hold keeps everything but its status, and leaves `active` for good. */
  ghost predicate Evolves(x: Hold, y: Hold) {
    y.(status := x.status) == x && (x.status.Active? || y == x)
  }

  ghost predicate Extends(db: Db, after: Db) {
    && db.entries <= after.entries
    && (forall t :: t in db.transactions ==> t in after.transactions && after.transactions[t] == db.transactions[t])
    && (forall a :: a in db.accounts ==> a in after.accounts && after.accounts[a] == db.accounts[a])
    && (forall h :: h in db.holds ==> h in after.holds && Evolves(db.holds[h], after.holds[h]))
    && db.outbox <= after.outbox
    && (forall r :: r in db.responses ==> r in after.responses && after.responses[r] == db.responses[r])
    && db.processed <= after.processed
  }

  lemma ExtendsTransitively(a: Db, b: Db, c: Db)
    requires Extends(a, b) && Extends(b, c)
    ensures Extends(a, c)
  {
    assert forall h :: h in a.holds ==>
      h in b.holds && Evolves(a.holds[h], b.holds[h]) && Evolves(b.holds[h], c.holds[h]);
  }

  lemma {:induction false} ReleasesExtend(db: Db, ids: seq<Uuid>, n: nat, reason: string)
    requires Tables(db) && n <= |ids|
    ensures var r := ReleaseFirst(db, ids, n, reason);
      r.Ok? ==> Extends(db, r.value)
  {
    if n > 0 {
      ReleasesExtend(db, ids, n - 1, reason);
      var before := ReleaseFirst(db, ids, n - 1, reason);
      if before.Ok? && ReleaseSpec(before.value, ids[n - 1], reason).Ok? {
        ReleaseExtends(before.value, ids[n - 1], reason);
        ExtendsTransitively(db, before.value, ReleaseSpec(before.value, ids[n - 1], reason).value);
      }
    }
  }

  lemma ReleaseExtends(db: Db, h: Uuid, reason: string)
    requires Tables(db)
    ensures var r := ReleaseSpec(db, h, reason);
      r.Ok? ==> Extends(db, r.value)
  {
  }

  lemma CaptureExtends(db: Db, h: Uuid, amount: int, t: Uuid)
    requires Tables(db)
    ensures var r := CaptureSpec(db, h, amount, t);
      r.Ok? ==> Extends(db, r.value)
  {
  }

  lemma HoldExtends(db: Db, holdId: Uuid, a: Uuid, p: Uuid, amount: int, c: Currency, x: int)
    requires Tables(db)
    ensures var r := HoldSpec(db, holdId, a, p, amount, c, x);
      r.Ok? ==> Extends(db, r.value)
  {
  }

  lemma DepositExtends(db: Db, a: Uuid, amount: int, c: Currency, key: Key, t: Uuid)
    requires Tables(db)
    ensures var r := DepositSpec(db, a, amount, c, key, t);
      r.Ok? ==> Extends(db, r.value)
  {
  }

  lemma OpenExtends(db: Db, a: Uuid, u: Uuid, c: Currency)
    requires a !in db.accounts
    ensures Extends(db, OpenEffect(db, a, u, c))
  {
  }

  lemma ProvisionExtends(db: Db, a: Uuid, u: Uuid, seed: int, c: Currency, t: Uuid)
    requires Tables(db)
    ensures var r := ProvisionSpec(db, a, u, seed, c, t);
      r.Ok? ==> Extends(db, r.value)
  {
    hide Extends, DepositSpec;
    if ProvisionSpec(db, a, u, seed, c, t).Ok? {
      var withAccount := OpenEffect(db, a, u, c);
      OpenExtends(db, a, u, c);
      if seed > 0 {
        DepositExtends(withAccount, a, seed, c, WelcomeOf(u), t);
        ExtendsTransitively(db, withAccount, DepositSpec(withAccount, a, seed, c, WelcomeOf(u), t).value);
      }
    }
  }

  lemma MoneyExtends(db: Db, body: Body, inp: Inputs)
    requires Tables(db)
    ensures var r := Money(db, body, inp);
      r.Ok? ==> Extends(db, r.value)
  {
    hide Extends, HoldSpec, CaptureSpec, ReleaseSpec, ProvisionSpec;
    match body
    case HoldRpc(_, a, p, amount, c, ttl) => HoldExtends(db, inp.holdId, a, p, amount, c, inp.now + ttl);
    case CaptureRpc(_, h, amount) => CaptureExtends(db, h, amount, inp.txnId);
    case ReleaseRpc(_, h, reason) => ReleaseExtends(db, h, reason);
    case UserRegistered(_, u, seed, c) =>
      if u.Some? {
        ProvisionExtends(db, inp.accountId, u.value, seed, c, inp.txnId);
      }
    case PaymentFailed(_, p) =>
      Same(db);
      if p.Some? && ActiveFor(db, p.value).Some? {
        ReleaseExtends(db, ActiveFor(db, p.value).value, "compensation");
      }
    case OtherEvent(_) => Same(db);
    case SweepExpired => ReleasesExtend(db, inp.selection, |inp.selection|, "expiry");
  }

  lemma Same(db: Db)
    ensures Extends(db, db)
  {
  }

  lemma GateExtends(db: Db, body: Body)
    ensures Extends(db, Gate(db, body))
  {
  }

  lemma RecordExtends(db: Db, body: Body, reply: Reply)
    requires body.IsRpc() ==> body.requestId !in db.responses
    ensures Extends(db, Record(db, body, reply))
  {
  }

  /** No operation touches the idempotency tables; only the gates do. */
  lemma MoneyKeepsGates(db: Db, body: Body, inp: Inputs)
    requires Tables(db)
    ensures var r := Money(db, body, inp);
      r.Ok? ==> r.value.responses == db.responses && r.value.processed == db.processed
  {
    if body.SweepExpired? && Money(db, body, inp).Ok? {
      SweepKeepsRest(db, inp.selection, |inp.selection|, "expiry");
    }
  }

  lemma StepExtends(db: Db, a: Attempt)
    ensures Extends(db, Step(db, a))
  {
    hide Extends, Money;
    Same(db);
    if TakesEffect(db, a) && !Seen(db, a.body) {
      var gated := Gate(db, a.body);
      GateExtends(db, a.body);
      MoneyExtends(gated, a.body, a.inp);
      MoneyKeepsGates(gated, a.body, a.inp);
      var after := Money(gated, a.body, a.inp).value;
      ExtendsTransitively(db, gated, after);
      var reply := ReplyOf(a.body, a.inp, after);
      RecordExtends(after, a.body, reply);
      ExtendsTransitively(db, after, Record(after, a.body, reply));
    }
  }

  /** Along every run the ledger only grows and terminal holds never change again. */
  lemma {:induction false} RunExtends(db: Db, run: seq<Attempt>)
    ensures Extends(db, Run(db, run))
  {
    hide Extends, Step;
    if run == [] {
      Same(db);
    } else {
      RunExtends(db, run[..|run| - 1]);
      var before := Run(db, run[..|run| - 1]);
      StepExtends(before, run[|run| - 1]);
      ExtendsTransitively(db, before, Step(before, run[|run| - 1]));
    }
  }

  lemma ProvisionKeepsTables(db: Db, a: Uuid, u: Uuid, seed: int, c: Currency, t: Uuid)
    requires Tables(db)
    ensures var r := ProvisionSpec(db, a, u, seed, c, t);
      r.Ok? ==> Tables(r.value)
  {
  }

  lemma MoneyKeepsTables(db: Db, body: Body, inp: Inputs)
    requires Tables(db)
    ensures var r := Money(db, body, inp);
      r.Ok? ==> Tables(r.value)
  {
    match body
    case UserRegistered(_, u, seed, c) =>
      if u.Some? {
        ProvisionKeepsTables(db, inp.accountId, u.value, seed, c, inp.txnId);
      }
    case _ =>
  }

  lemma {:induction false} RunKeepsTables(db: Db, run: seq<Attempt>)
    requires Tables(db)
    ensures Tables(Run(db, run))
  {
    hide Money;
    if run != [] {
      var before, last := Run(db, run[..|run| - 1]), run[|run| - 1];
      RunKeepsTables(db, run[..|run| - 1]);
      MoneyKeepsTables(Gate(before, last.body), last.body, last.inp);
    }
  }

  /** The second half of a run extends the state after its first half. */
  lemma RunExtendsFrom(db: Db, run: seq<Attempt>, i: nat)
    requires i <= |run|
    ensures Extends(Run(db, run[..i]), Run(db, run))
  {
    assert run == run[..i] + run[i..];
    RunConcat(db, run[..i], run[i..]);
    RunExtends(Run(db, run[..i]), run[i..]);
  }

  // Races for one hold

  ghost predicate IsOpen(db: Db, h: Uuid) {
    h in db.holds && db.holds[h].status.Active?
  }

  /** Attempt i of the run is the one that ends hold h. */
  ghost predicate Wins(db: Db, run: seq<Attempt>, i: nat, h: Uuid)
    requires i < |run|
  {
    IsOpen(Run(db, run[..i]), h) && !IsOpen(Run(db, run[..i + 1]), h)
  }

  lemma WonForever(db: Db, run: seq<Attempt>, i: nat, j: nat, h: Uuid)
    requires i <= j <= |run| && h in Run(db, run[..i]).holds && !IsOpen(Run(db, run[..i]), h)
    ensures h in Run(db, run[..j]).holds && Run(db, run[..j]).holds[h] == Run(db, run[..i]).holds[h]
  {
    assert run[..j][..i] == run[..i];
    RunExtendsFrom(db, run[..j], i);
    assert Evolves(Run(db, run[..i]).holds[h], Run(db, run[..j]).holds[h]);
  }

  lemma StillThere(db: Db, run: seq<Attempt>, i: nat, j: nat, h: Uuid)
    requires i <= j <= |run| && h in Run(db, run[..i]).holds
    ensures h in Run(db, run[..j]).holds
  {
    assert run[..j][..i] == run[..i];
    RunExtendsFrom(db, run[..j], i);
  }

  /** However captures, releases, payment failures and sweeps race for a hold, at most one wins. */
  lemma AtMostOneWinner(db: Db, run: seq<Attempt>, i: nat, j: nat, h: Uuid)
    requires i < |run| && j < |run| && Wins(db, run, i, h) && Wins(db, run, j, h)
    ensures i == j
  {
    hide Run;
    if i < j {
      StillThere(db, run, i, i + 1, h);
      WonForever(db, run, i + 1, j, h);
    } else if j < i {
      StillThere(db, run, j, j + 1, h);
      WonForever(db, run, j + 1, i, h);
    }
  }

  /** The attempt is of a kind that can end hold h: a capture, a release, a payment failure or a sweep of it. */
  ghost predicate Contends(db: Db, a: Attempt, h: Uuid)
    requires h in db.holds
  {
    match a.body
    case CaptureRpc(_, g, _) => g == h
    case ReleaseRpc(_, g, _) => g == h
    case PaymentFailed(_, p) => p == Some(db.holds[h].paymentId)
    case SweepExpired => h in a.inp.selection
    case _ => false
  }

  /** The status that a hold ends in tells who ended it. */
  function EndedAs(body: Body): HoldStatus {
    match body
    case CaptureRpc(_, _, _) => Captured
    case ReleaseRpc(_, _, reason) => if reason == "expiry" then Expired else Released
    case SweepExpired => Expired
    case _ => Released
  }

  lemma SpecEnds(db: Db, body: Body, inp: Inputs, h: Uuid)
    requires Tables(db) && Money(db, body, inp).Ok? && IsOpen(db, h) && !IsOpen(Money(db, body, inp).value, h)
    ensures Contends(db, Attempt(body, inp, true), h)
    ensures h in Money(db, body, inp).value.holds && Money(db, body, inp).value.holds[h].status == EndedAs(body)
  {
    match body
    case SweepExpired =>
      SweepMovesHolds(db, inp.selection, |inp.selection|, "expiry");
      assert inp.selection[..|inp.selection|] == inp.selection;
    case PaymentFailed(_, p) =>
      assert ActiveFor(db, p.value).Some?;
      assert IsActiveFor(db, p.value, ActiveFor(db, p.value).value);
    case _ =>
  }

  /** Only a committed capture, release, payment failure or sweep of the hold itself ends it. */
  lemma WinnerIsContender(db: Db, a: Attempt, h: Uuid)
    requires IsOpen(db, h) && !IsOpen(Step(db, a), h)
    ensures TakesEffect(db, a) && Contends(db, a, h)
    ensures h in Step(db, a).holds && Step(db, a).holds[h].status == EndedAs(a.body)
  {
    hide Money, Contends;
    SpecEnds(Gate(db, a.body), a.body, a.inp, h);
    GateContends(db, a, h);
  }

  lemma GateContends(db: Db, a: Attempt, h: Uuid)
    requires h in db.holds
    ensures Contends(Gate(db, a.body), Attempt(a.body, a.inp, true), h) <==> Contends(db, a, h)
  {
  }

  /** An active hold that is no longer active was ended by one attempt of the run, whose kind its status shows. */
  lemma {:induction false} SomeoneWon(db: Db, run: seq<Attempt>, h: Uuid) returns (i: nat)
    requires IsOpen(db, h) && !IsOpen(Run(db, run), h)
    ensures i < |run| && Wins(db, run, i, h)
    ensures TakesEffect(Run(db, run[..i]), run[i]) && Contends(Run(db, run[..i]), run[i], h)
    ensures h in Run(db, run).holds && Run(db, run).holds[h].status == EndedAs(run[i].body)
  {
    hide Step, TakesEffect, Contends;
    var front, last := run[..|run| - 1], run[|run| - 1];
    if IsOpen(Run(db, front), h) {
      i := |run| - 1;
      assert run[..i + 1] == run;
      WinnerIsContender(Run(db, front), last, h);
    } else {
      i := SomeoneWon(db, front, h);
      assert front[..i] == run[..i] && front[..i + 1] == run[..i + 1];
      StepExtends(Run(db, front), last);
    }
  }

  /** Whoever comes for a hold that has ended changes no money, but for a payment with another active hold. */
  lemma LoserChangesNothing(db: Db, a: Attempt, h: Uuid)
    requires h in db.holds && !IsOpen(db, h) && Contends(db, a, h)
    ensures a.body.SweepExpired? ==> !TakesEffect(db, a)
    ensures SameMoney(db, Step(db, a)) || (a.body.PaymentFailed? && HasActive(db.holds, db.holds[h].paymentId))
  {
    if a.body.SweepExpired? {
      var i :| 0 <= i < |a.inp.selection| && a.inp.selection[i] == h;
      assert !Expirable(db, a.inp.now, a.inp.selection[i]);
    } else if a.body.PaymentFailed? && !HasActive(db.holds, db.holds[h].paymentId) {
      NoneFound(Gate(db, a.body), db.holds[h].paymentId);
    }
  }

  lemma NoneFound(db: Db, p: Uuid)
    requires !HasActive(db.holds, p)
    ensures ActiveFor(db, p) == None
  {
    assert forall h: Uuid :: !IsActiveFor(db, p, h);
  }

  /**
   * After the winner, every later capture, release, payment failure or sweep of the hold leaves the money
   * as it was, unless the payment has got another active hold meanwhile, which its failure then releases.
   */
  lemma LosersChangeNothing(db: Db, run: seq<Attempt>, i: nat, j: nat, h: Uuid)
    requires i < j < |run| && Wins(db, run, i, h)
    ensures h in Run(db, run[..j]).holds
    ensures Contends(Run(db, run[..j]), run[j], h) ==>
      var at := Run(db, run[..j]);
      || SameMoney(at, Run(db, run[..j + 1]))
      || (run[j].body.PaymentFailed? && HasActive(at.holds, at.holds[h].paymentId))
  {
    hide Step, Contends, SameMoney;
    StillThere(db, run, i, i + 1, h);
    WonForever(db, run, i + 1, j, h);
    assert run[..j + 1][..j] == run[..j] && run[..j + 1][j] == run[j];
    if Contends(Run(db, run[..j]), run[j], h) {
      LoserChangesNothing(Run(db, run[..j]), run[j], h);
    }
  }
}
