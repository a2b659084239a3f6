/** With a positive seed a user is provisioned once, however often and under whatever ids they register. */
module Accounts {
  import opened Int64
  import opened Schema
  import opened Effects
  import opened Invariants
  import opened Machine
  import opened Safety
  import opened History
  import opened Sweep

  predicate Seeded(body: Body) {
    body.UserRegistered? ==> 0 < body.seed
  }

  ghost predicate Welcomed(db: Db, a: Uuid)
    requires a in db.accounts
  {
    KeyUsed(db.transactions, WelcomeOf(db.accounts[a].userId))
  }

  /** Each user account has its welcome deposit, and no two belong to one user. */
  ghost predicate OneAccountEach(db: Db) {
    && (forall a :: a in db.accounts && !IsSystem(a) ==> Welcomed(db, a))
    && forall a, b | a in db.accounts && b in db.accounts && !IsSystem(a) && !IsSystem(b)
       :: db.accounts[a].userId == db.accounts[b].userId ==> a == b
  }

  /**
   * Provisioning succeeds, for any user, exactly under a new account id and when no welcome deposit is due, or
   * the user has had none, its transaction id is new and the settlement row has room for it.
   */
  lemma ProvisionIff(db: Db, a: Uuid, u: Uuid, seed: int, c: Currency, t: Uuid)
    requires Tables(db) && Ranges(db) && (Supported(c) ==> Settlement(c) in db.accounts)
    ensures ProvisionSpec(db, a, u, seed, c, t).Ok? <==>
      && a !in db.accounts
      && (|| seed <= 0
          || (&& !KeyUsed(db.transactions, WelcomeOf(u)) && t !in db.transactions
              && Supported(c) && db.balances[Settlement(c)].available + seed <= MAX))
  {
    var withAccount := OpenEffect(db, a, u, c);
    if 0 < seed <= MAX && a !in db.accounts && Supported(c) {
      assert BumpFits(Bump(withAccount.balances, Settlement(c), seed, 0), a, seed, 0);
    }
  }

  function Register(e: Uuid, u: Uuid, seed: int, a: Uuid, t: Uuid): Attempt {
    Attempt(UserRegistered(e, Some(u), seed, USD), Inputs(0, 0, t, a, [], None), true)
  }

  lemma KeysStay(db: Db, after: Db, key: Key)
    requires Extends(db, after) && KeyUsed(db.transactions, key)
    ensures KeyUsed(after.transactions, key)
  {
    var t :| t in db.transactions && db.transactions[t].key == Some(key);
    assert t in after.transactions && after.transactions[t].key == Some(key);
  }

  lemma SameAccountsKeep(db: Db, after: Db)
    requires OneAccountEach(db) && Extends(db, after) && after.accounts == db.accounts
    ensures OneAccountEach(after)
  {
    hide Extends;
    forall a | a in after.accounts && !IsSystem(a) ensures Welcomed(after, a) {
      assert Welcomed(db, a);
      KeysStay(db, after, WelcomeOf(db.accounts[a].userId));
    }
  }

  lemma ProvisionKeeps(db: Db, a: Uuid, u: Uuid, seed: int, c: Currency, t: Uuid)
    requires Tables(db) && OneAccountEach(db) && 0 < seed && ProvisionSpec(db, a, u, seed, c, t).Ok?
    ensures OneAccountEach(ProvisionSpec(db, a, u, seed, c, t).value)
  {
    var after := ProvisionSpec(db, a, u, seed, c, t).value;
    ProvisionExtends(db, a, u, seed, c, t);
    ProvisionShape(db, a, u, seed, c, t);
    hide ProvisionSpec, Extends;
    forall i | i in after.accounts && !IsSystem(i) ensures Welcomed(after, i) {
      if i != a {
        assert Welcomed(db, i);
        KeysStay(db, after, WelcomeOf(db.accounts[i].userId));
      }
    }
    forall i | i in db.accounts && !IsSystem(i) ensures db.accounts[i].userId != u {
      assert Welcomed(db, i);
    }
  }

  lemma ProvisionShape(db: Db, a: Uuid, u: Uuid, seed: int, c: Currency, t: Uuid)
    requires Tables(db) && 0 < seed && ProvisionSpec(db, a, u, seed, c, t).Ok?
    ensures var after := ProvisionSpec(db, a, u, seed, c, t).value;
      && after.accounts == db.accounts[a := Account(u, c, Liability)]
      && !KeyUsed(db.transactions, WelcomeOf(u)) && KeyUsed(after.transactions, WelcomeOf(u))
  {
    var after := ProvisionSpec(db, a, u, seed, c, t).value;
    assert t in after.transactions && after.transactions[t].key == Some(WelcomeOf(u));
  }

  lemma MoneyKeepsAccounts(db: Db, body: Body, inp: Inputs)
    requires Tables(db) && !body.UserRegistered? && Money(db, body, inp).Ok?
    ensures Money(db, body, inp).value.accounts == db.accounts
  {
    if body.SweepExpired? {
      SweepKeepsRest(db, inp.selection, |inp.selection|, "expiry");
    }
  }

  lemma MoneyKeeps(db: Db, body: Body, inp: Inputs)
    requires Tables(db) && OneAccountEach(db) && Seeded(body) && Money(db, body, inp).Ok?
    ensures OneAccountEach(Money(db, body, inp).value)
  {
    hide OneAccountEach, Extends, ProvisionSpec;
    if body.UserRegistered? {
      ProvisionKeeps(db, inp.accountId, body.user.value, body.seed, body.currency, inp.txnId);
    } else {
      hide Money;
      MoneyExtends(db, body, inp);
      MoneyKeepsAccounts(db, body, inp);
      SameAccountsKeep(db, Money(db, body, inp).value);
    }
  }

  lemma StepKeeps(db: Db, a: Attempt)
    requires OneAccountEach(db) && Seeded(a.body)
    ensures OneAccountEach(Step(db, a))
  {
    hide OneAccountEach, Money, Extends;
    if TakesEffect(db, a) && !Seen(db, a.body) {
      var gated := Gate(db, a.body);
      GateExtends(db, a.body);
      SameAccountsKeep(db, gated);
      MoneyKeeps(gated, a.body, a.inp);
      MoneyKeepsGates(gated, a.body, a.inp);
      var after := Money(gated, a.body, a.inp).value;
      var reply := ReplyOf(a.body, a.inp, after);
      RecordExtends(after, a.body, reply);
      SameAccountsKeep(after, Record(after, a.body, reply));
    }
  }

  /** Along every run with positive seeds, distinct user accounts belong to distinct users. */
  lemma {:induction false} OneAccountPerUser(run: seq<Attempt>)
    requires forall i :: 0 <= i < |run| ==> Seeded(run[i].body)
    ensures OneAccountEach(Run(Initial(), run))
  {
    hide Step;
    if run == [] {
      assert forall a :: a in Initial().accounts ==> a in SYSTEM_IDS && IsSystem(a);
    } else {
      OneAccountPerUser(run[..|run| - 1]);
      StepKeeps(Run(Initial(), run[..|run| - 1]), run[|run| - 1]);
    }
  }

  lemma RegisterIsProvision(db: Db, e: Uuid, u: Uuid, seed: int, a: Uuid, t: Uuid)
    requires Tables(db) && e !in db.processed
    ensures var gated := Gate(db, Register(e, u, seed, a, t).body);
      && Tables(gated)
      && var r := ProvisionSpec(gated, a, u, seed, USD, t);
         Step(db, Register(e, u, seed, a, t)) == if r.Ok? then r.value else db
  {
    hide ProvisionSpec;
  }

  lemma ProvisionMoves(db: Db, a: Uuid, u: Uuid, seed: int, c: Currency, t: Uuid)
    requires Tables(db) && ProvisionSpec(db, a, u, seed, c, t).Ok?
    ensures var after := ProvisionSpec(db, a, u, seed, c, t).value;
      && after.accounts == db.accounts[a := Account(u, c, Liability)] && after.processed == db.processed
      && after.holds == db.holds && after.responses == db.responses
      && (seed <= 0 ==> after == OpenEffect(db, a, u, c))
      && (seed > 0 ==> KeyUsed(after.transactions, WelcomeOf(u)))
      && (seed > 0 && Supported(c) && Settlement(c) in db.balances ==>
            && Settlement(c) in after.balances
            && after.balances[Settlement(c)].available == db.balances[Settlement(c)].available + seed)
  {
    if seed > 0 {
      ProvisionShape(db, a, u, seed, c, t);
    }
  }

  /** After the first registration: welcomed with a positive seed, otherwise as before but for the empty account. */
  lemma FirstRegistration(e: Uuid, u: Uuid, seed: int, a: Uuid, t: Uuid)
    requires !IsSystem(a) && seed <= MAX
    ensures var db := Step(Initial(), Register(e, u, seed, a, t));
      && Inv(db) && Settlement(USD) in db.balances
      && db.accounts == Initial().accounts[a := Account(u, USD, Liability)] && db.processed == {e}
      && db.holds == map[] && db.responses == map[]
      && (if seed > 0 then KeyUsed(db.transactions, WelcomeOf(u)) && db.balances[Settlement(USD)].available == seed
          else db.transactions == map[] && db.balances == Initial().balances[a := Balance(0, 0, 0)])
  {
    hide Inv, ProvisionSpec, Step;
    var db, r := Initial(), Register(e, u, seed, a, t);
    InitialTables();
    InitialInv();
    StepKeepsInv(db, r);
    assert Settlement(USD) in SYSTEM_IDS && a !in SYSTEM_IDS;
    RegisterIsProvision(db, e, u, seed, a, t);
    ProvisionIff(Gate(db, r.body), a, u, seed, USD, t);
    ProvisionMoves(Gate(db, r.body), a, u, seed, USD, t);
  }

  lemma InvProvisions(db: Db)
    requires Inv(db)
    ensures Tables(db) && Ranges(db) && Settlement(USD) in db.accounts
  {
    assert IsSystem(Settlement(USD));
  }

  /**
   * Two registrations of one user under distinct event ids, in the migrated database: the user ends up with
   * two accounts exactly when one of the two seeds is not positive.
   */
  lemma SecondAccountIff(e: Uuid, f: Uuid, u: Uuid, first: int, second: int, a: Uuid, b: Uuid, t: Uuid, v: Uuid)
    requires e != f && a != b && t != v && !IsSystem(a) && !IsSystem(b) && first <= MAX && second <= MAX
    ensures var db := Run(Initial(), [Register(e, u, first, a, t), Register(f, u, second, b, v)]);
      && a in db.accounts && db.accounts[a].userId == u
      && (b in db.accounts && db.accounts[b].userId == u <==> first <= 0 || second <= 0)
  {
    hide Inv, ProvisionSpec, Step, Run;
    var r, q := Register(e, u, first, a, t), Register(f, u, second, b, v);
    var one := Step(Initial(), r);
    RunOfTwo(Initial(), r, q);
    FirstRegistration(e, u, first, a, t);
    InvProvisions(one);
    assert b !in one.accounts;
    RegisterIsProvision(one, f, u, second, b, v);
    var gated := Gate(one, q.body);
    ProvisionIff(gated, b, u, second, USD, v);
    if ProvisionSpec(gated, b, u, second, USD, v).Ok? {
      ProvisionMoves(gated, b, u, second, USD, v);
    }
  }
}
