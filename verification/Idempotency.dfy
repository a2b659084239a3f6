/** Redelivery is invisible: what a run does depends only on the first committed attempt of each request. */
module Idempotency {
  import opened Schema
  import opened Machine
  import opened History

  /** The attempt commits and its request or event has not been seen before. */
  ghost predicate Fresh(db: Db, a: Attempt) {
    TakesEffect(db, a) && !Seen(db, a.body)
  }

  /** Two bodies with one idempotency key: one request id, whatever the methods, or one event id. */
  predicate SameKey(x: Body, y: Body) {
    (x.IsRpc() && y.IsRpc() && x.requestId == y.requestId) || (x.IsEvent() && y.IsEvent() && x.eventId == y.eventId)
  }

  lemma StaleIsSilent(db: Db, a: Attempt)
    requires !Fresh(db, a)
    ensures Step(db, a) == db
  {
  }

  lemma EffectIsSeen(db: Db, a: Attempt, b: Body)
    requires TakesEffect(db, a) && SameKey(a.body, b)
    ensures Seen(Step(db, a), b)
  {
    if !Seen(db, a.body) {
      MoneyKeepsGates(Gate(db, a.body), a.body, a.inp);
    }
  }

  lemma SeenForever(db: Db, after: Db, b: Body)
    requires Extends(db, after) && Seen(db, b)
    ensures Seen(after, b)
  {
  }

  /** Once an attempt has committed, a later one with its key changes nothing, whatever method it calls. */
  lemma LaterIsSilent(db: Db, run: seq<Attempt>, i: nat, j: nat)
    requires i < j < |run| && SameKey(run[i].body, run[j].body) && TakesEffect(Run(db, run[..i]), run[i])
    ensures !Fresh(Run(db, run[..j]), run[j])
    ensures Run(db, run[..j + 1]) == Run(db, run[..j])
  {
    hide Step, Extends, Seen;
    assert run[..i + 1][..i] == run[..i] && run[..i + 1][i] == run[i];
    assert run[..j + 1][..j] == run[..j] && run[..j + 1][j] == run[j];
    EffectIsSeen(Run(db, run[..i]), run[i], run[j].body);
    assert run[..j][..i + 1] == run[..i + 1];
    RunExtendsFrom(db, run[..j], i + 1);
    SeenForever(Run(db, run[..i + 1]), Run(db, run[..j]), run[j].body);
    StaleIsSilent(Run(db, run[..j]), run[j]);
  }

  lemma StepSees(db: Db, a: Attempt, b: Body)
    requires Seen(Step(db, a), b) && !Seen(db, b)
    ensures TakesEffect(db, a) && SameKey(a.body, b)
  {
    if TakesEffect(db, a) && !Seen(db, a.body) {
      MoneyKeepsGates(Gate(db, a.body), a.body, a.inp);
    }
  }

  /** A key is seen only because an attempt with it took effect. */
  lemma {:induction false} SeenHasCause(db: Db, run: seq<Attempt>, b: Body) returns (i: nat)
    requires Seen(Run(db, run), b) && !Seen(db, b)
    ensures i < |run| && SameKey(run[i].body, b) && TakesEffect(Run(db, run[..i]), run[i])
  {
    hide Step, Seen, TakesEffect, SameKey;
    var front := run[..|run| - 1];
    if Seen(Run(db, front), b) {
      i := SeenHasCause(db, front, b);
      assert front[..i] == run[..i];
    } else {
      i := |run| - 1;
      StepSees(Run(db, front), run[i], b);
    }
  }

  /** Attempt i commits with success, its key is new to db, and no earlier attempt with that key did so. */
  ghost predicate Leads(db: Db, run: seq<Attempt>, i: nat)
    requires i < |run|
  {
    && TakesEffect(Run(db, run[..i]), run[i]) && !Seen(db, run[i].body)
    && forall j :: 0 <= j < i && SameKey(run[j].body, run[i].body) ==> !TakesEffect(Run(db, run[..j]), run[j])
  }

  /** The gates find an attempt fresh exactly when it is the first committed attempt with its key. */
  lemma FreshIffLeads(db: Db, run: seq<Attempt>, i: nat)
    requires i < |run|
    ensures Fresh(Run(db, run[..i]), run[i]) <==> Leads(db, run, i)
  {
    hide Step, Extends, Seen, TakesEffect, SameKey;
    var body := run[i].body;
    if TakesEffect(Run(db, run[..i]), run[i]) {
      if Seen(db, body) {
        RunExtends(db, run[..i]);
        SeenForever(db, Run(db, run[..i]), body);
      } else if Seen(Run(db, run[..i]), body) {
        var j := SeenHasCause(db, run[..i], body);
        assert run[..i][..j] == run[..j];
      } else {
        forall j | 0 <= j < i && SameKey(run[j].body, body) ensures !TakesEffect(Run(db, run[..j]), run[j]) {
          if TakesEffect(Run(db, run[..j]), run[j]) {
            LaterIsSilent(db, run, j, i);
          }
        }
      }
    }
  }

  /** The run reduced to the first committed attempt of each request and event. */
  ghost function Kept(db: Db, run: seq<Attempt>): seq<Attempt> {
    if run == [] then []
    else Kept(db, run[..|run| - 1]) + (if Leads(db, run, |run| - 1) then [run[|run| - 1]] else [])
  }

  /** Duplicated, aborted and unacknowledged attempts leave no trace: only first committed ones count. */
  lemma {:induction false} RedeliveryIsInvisible(db: Db, run: seq<Attempt>)
    ensures Run(db, Kept(db, run)) == Run(db, run)
  {
    hide Step, Fresh, Leads;
    if run != [] {
      var front, last := run[..|run| - 1], run[|run| - 1];
      RedeliveryIsInvisible(db, front);
      FreshIffLeads(db, run, |run| - 1);
      if Leads(db, run, |run| - 1) {
        RunSnoc(db, Kept(db, front), last);
      } else {
        StaleIsSilent(Run(db, front), last);
        assert Kept(db, run) == Kept(db, front);
      }
    }
  }

  lemma {:induction false} KeptIsSeen(db: Db, run: seq<Attempt>, k: nat, b: Body)
    requires k < |Kept(db, run)| && SameKey(Kept(db, run)[k].body, b)
    ensures Seen(Run(db, run), b)
  {
    var front, last := run[..|run| - 1], run[|run| - 1];
    if k < |Kept(db, front)| {
      KeptIsSeen(db, front, k, b);
      StepExtends(Run(db, front), last);
      SeenForever(Run(db, front), Run(db, run), b);
    } else {
      EffectIsSeen(Run(db, front), last, b);
    }
  }

  /** Across all methods, a request id or event id takes effect at most once. */
  lemma {:induction false} AtMostOneEffect(db: Db, run: seq<Attempt>, k: nat, l: nat)
    requires k < l < |Kept(db, run)|
    ensures !SameKey(Kept(db, run)[k].body, Kept(db, run)[l].body)
  {
    hide Seen, Step, SameKey, TakesEffect;
    var front, last := run[..|run| - 1], run[|run| - 1];
    if l < |Kept(db, front)| {
      AtMostOneEffect(db, front, k, l);
    } else if SameKey(Kept(db, front)[k].body, last.body) {
      FreshIffLeads(db, run, |run| - 1);
      KeptIsSeen(db, front, k, last.body);
    }
  }

  /** A repeated call of the same method gets the response of the call that took effect. */
  lemma ReplayReturnsStored(db: Db, run: seq<Attempt>, i: nat, j: nat)
    requires i < j < |run| && run[i].body.IsRpc()
    requires TakesEffect(Run(db, run[..i]), run[i]) && !Seen(Run(db, run[..i]), run[i].body)
    requires SameKey(run[i].body, run[j].body) && run[i].body.Rpc() == run[j].body.Rpc()
    ensures Perform(Run(db, run[..j]), run[j].body, run[j].inp)
         == Ok(Done(Run(db, run[..j]), Perform(Run(db, run[..i]), run[i].body, run[i].inp).value.reply))
  {
    hide Money;
    var at := Run(db, run[..i]);
    assert run[..i + 1][..i] == run[..i] && run[..i + 1][i] == run[i];
    assert run[..j][..i + 1] == run[..i + 1];
    RunExtendsFrom(db, run[..j], i + 1);
    RunKeepsTables(at, run[i..j]);
    RunConcat(db, run[..i], run[i..j]);
    assert run[..j] == run[..i] + run[i..j];
  }
}
