/** How each table update moves the derived quantities. */
module Deltas {
  import opened Schema
  import opened Sums
  import opened Effects
  import opened Invariants

  lemma ActivePut(hs: map<Uuid, Hold>, h: Uuid, row: Hold, a: Uuid)
    ensures ActiveSum(hs[h := row], a) == ActiveSum(hs, a) + Open(row, a) - (if h in hs then Open(hs[h], a) else 0)
  {
    assert OpenAmounts(hs[h := row], a) == OpenAmounts(hs, a)[h := Open(row, a)];
    TotalPut(OpenAmounts(hs, a), h, Open(row, a));
  }

  lemma LiabilitiesPut(accounts: map<Uuid, Account>, bs: map<Uuid, Balance>, a: Uuid, b: Balance, c: Currency)
    ensures Liabilities(accounts, bs[a := b], c)
         == Liabilities(accounts, bs, c) + Share(accounts, a, b, c)
            - (if a in bs then Share(accounts, a, bs[a], c) else 0)
  {
    assert Shares(accounts, bs[a := b], c) == Shares(accounts, bs, c)[a := Share(accounts, a, b, c)];
    TotalPut(Shares(accounts, bs, c), a, Share(accounts, a, b, c));
  }

  lemma LiabilitiesBump(accounts: map<Uuid, Account>, bs: map<Uuid, Balance>, a: Uuid, dA: int, dH: int, c: Currency)
    requires a in bs && a in accounts
    ensures Liabilities(accounts, Bump(bs, a, dA, dH), c)
         == Liabilities(accounts, bs, c)
            + (if accounts[a].kind.Liability? && accounts[a].currency == c then dA + dH else 0)
  {
    LiabilitiesPut(accounts, bs, a, Bump(bs, a, dA, dH)[a], c);
  }

  lemma LiabilitiesOpen(db: Db, a: Uuid, userId: Uuid, currency: Currency, c: Currency)
    requires a !in db.accounts && a !in db.balances
    ensures var after := OpenEffect(db, a, userId, currency);
      Liabilities(after.accounts, after.balances, c) == Liabilities(db.accounts, db.balances, c)
  {
    var after := OpenEffect(db, a, userId, currency);
    assert Shares(after.accounts, db.balances, c) == Shares(db.accounts, db.balances, c);
    LiabilitiesPut(after.accounts, db.balances, a, Balance(0, 0, 0), c);
  }

  /** Two legs appended to the ledger. */
  lemma PairSplits(es: seq<Entry>, t: Uuid, legs: seq<Leg>)
    requires |legs| == 2
    ensures es + Entries(t, legs) == es + [Entry(t, legs[0])] + [Entry(t, legs[1])]
  {
  }

  lemma SidesAfterPair(es: seq<Entry>, t: Uuid, legs: seq<Leg>, a: Uuid)
    requires |legs| == 2
    ensures Debits(es + Entries(t, legs), a)
         == Debits(es, a) + LegSide(Entry(t, legs[0]), a, Debit) + LegSide(Entry(t, legs[1]), a, Debit)
    ensures Credits(es + Entries(t, legs), a)
         == Credits(es, a) + LegSide(Entry(t, legs[0]), a, Credit) + LegSide(Entry(t, legs[1]), a, Credit)
  {
    PairSplits(es, t, legs);
    var debit := (e: Entry) => LegSide(e, a, Debit);
    SumByAppend(es, Entry(t, legs[0]), debit);
    SumByAppend(es + [Entry(t, legs[0])], Entry(t, legs[1]), debit);
    var credit := (e: Entry) => LegSide(e, a, Credit);
    SumByAppend(es, Entry(t, legs[0]), credit);
    SumByAppend(es + [Entry(t, legs[0])], Entry(t, legs[1]), credit);
  }

  lemma TotalsAfterPair(es: seq<Entry>, t: Uuid, legs: seq<Leg>, c: Currency)
    requires |legs| == 2
    ensures AllDebits(es + Entries(t, legs), c)
         == AllDebits(es, c) + CurrencySide(Entry(t, legs[0]), c, Debit) + CurrencySide(Entry(t, legs[1]), c, Debit)
    ensures AllCredits(es + Entries(t, legs), c)
         == AllCredits(es, c) + CurrencySide(Entry(t, legs[0]), c, Credit) + CurrencySide(Entry(t, legs[1]), c, Credit)
  {
    PairSplits(es, t, legs);
    var debit := (e: Entry) => CurrencySide(e, c, Debit);
    SumByAppend(es, Entry(t, legs[0]), debit);
    SumByAppend(es + [Entry(t, legs[0])], Entry(t, legs[1]), debit);
    var credit := (e: Entry) => CurrencySide(e, c, Credit);
    SumByAppend(es, Entry(t, legs[0]), credit);
    SumByAppend(es + [Entry(t, legs[0])], Entry(t, legs[1]), credit);
  }

  lemma LegsAfterPair(es: seq<Entry>, t: Uuid, legs: seq<Leg>, u: Uuid)
    requires |legs| == 2
    ensures LegsOf(es + Entries(t, legs), u) == LegsOf(es, u) + (if u == t then legs else [])
  {
    PairSplits(es, t, legs);
    var one := es + [Entry(t, legs[0])];
    var two := one + [Entry(t, legs[1])];
    assert one[..|es|] == es && two[..|one|] == one;
    assert LegsOf(one, u) == LegsOf(es, u) + (if u == t then [legs[0]] else []);
    assert LegsOf(two, u) == LegsOf(one, u) + (if u == t then [legs[1]] else []);
    assert [legs[0]] + [legs[1]] == legs;
  }

  /** A transaction id that no entry carries has no legs. */
  lemma {:induction false} NoLegs(es: seq<Entry>, t: Uuid)
    requires forall e :: e in es ==> e.transactionId != t
    ensures LegsOf(es, t) == []
  {
    if es != [] {
      assert es[|es| - 1] in es;
      NoLegs(es[..|es| - 1], t);
    }
  }

  /** An account that no entry mentions has no debits and no credits. */
  lemma {:induction false} NoSides(es: seq<Entry>, a: Uuid)
    requires forall e :: e in es ==> e.leg.accountId != a
    ensures Debits(es, a) == 0 && Credits(es, a) == 0
  {
    if es != [] {
      assert es[|es| - 1] in es;
      NoSides(es[..|es| - 1], a);
    }
  }

  lemma {:induction false} NothingReserved(es: seq<Event>, a: Uuid)
    requires forall e :: e in es ==> e.accountId != a
    ensures Reserved(es, a) == 0
  {
    if es != [] {
      assert es[|es| - 1] in es;
      NothingReserved(es[..|es| - 1], a);
    }
  }

  lemma NothingActive(hs: map<Uuid, Hold>, a: Uuid)
    requires forall h :: h in hs ==> hs[h].accountId != a
    ensures ActiveSum(hs, a) == 0
  {
    TotalOfZeros(OpenAmounts(hs, a));
  }

  /** One event appended to the outbox, seen from an account, a currency and a hold. */
  lemma EventAppended(es: seq<Event>, e: Event)
    ensures forall a :: Reserved(es + [e], a) == Reserved(es, a) + (if e.accountId == a then Effect(e) else 0)
    ensures forall c ::
      CapturedIn(es + [e], c)
      == CapturedIn(es, c) + (if e.currency == c && e.detail.FundsCaptured? then e.amount else 0)
    ensures forall h ::
      HeldFor(es + [e], h)
      == HeldFor(es, h) + (if e.holdId == h && e.detail.FundsHeld? then e.amount else 0)
    ensures forall h ::
      CapturedFor(es + [e], h)
      == CapturedFor(es, h) + (if e.holdId == h && e.detail.FundsCaptured? then e.amount else 0)
    ensures forall h ::
      ReleasedFor(es + [e], h)
      == ReleasedFor(es, h) + (if e.holdId == h && e.detail.FundsReleased? then e.amount else 0)
  {
    assert (es + [e])[..|es|] == es;
  }
}
