/** internal/ledger/reconcile.go: balances recomputed from the entries and the active holds. */
module Reconcile {
  import opened Int64
  import opened Schema
  import opened Sums
  import opened Effects
  import opened Invariants
  import opened Deltas
  import opened NoStuck

  /** A row of the reconciliation query; PostgreSQL computes the three sums without overflow. */
  datatype Row = Row(id: Uuid, kind: AccountType, debits: int, credits: int, activeHeld: int, available: int, held: int)

  ghost function RowOf(db: Db, a: Uuid): Row
    requires a in db.accounts && a in db.balances
  {
    Row(a, db.accounts[a].kind, Debits(db.entries, a), Credits(db.entries, a), ActiveSum(db.holds, a),
        db.balances[a].available, db.balances[a].held)
  }

  /** rows is an answer of the query: one row for each account, in any order. */
  ghost predicate Answers(db: Db, rows: seq<Row>) {
    && Tables(db)
    && (forall i :: 0 <= i < |rows| ==> rows[i].id in db.accounts && rows[i] == RowOf(db, rows[i].id))
    && OneRowEach(rows)
    && forall a :: a in db.accounts ==> exists i :: 0 <= i < |rows| && rows[i].id == a
  }

  /** Scanning the sums into int64 fields succeeds. */
  predicate Scans(row: Row) {
    Fits(row.debits) && Fits(row.credits) && Fits(row.activeHeld)
  }

  predicate CountsDebits(kind: AccountType) {
    kind.Asset? || kind.Expense?
  }

  /** The expected balance as Go computes it. */
  function Derived(row: Row): int {
    if CountsDebits(row.kind) then Wrap(row.debits - row.credits)
    else Wrap(Wrap(row.credits - row.debits) - row.activeHeld)
  }

  predicate Reported(row: Row) {
    row.available != Derived(row) || row.held != row.activeHeld
  }

  function Count(rows: seq<Row>): nat {
    if rows == [] then 0 else Count(rows[..|rows| - 1]) + (if Reported(rows[|rows| - 1]) then 1 else 0)
  }

  /** ending is the error that cut the result short, if any. */
  method Reconcile(rows: seq<Row>, ending: Option<Error>) returns (drifted: nat, err: Option<Error>)
    ensures err.None? <==> ending.None? && forall i :: 0 <= i < |rows| ==> Scans(rows[i])
    ensures err.None? ==> drifted == Count(rows)
  {
    drifted := 0;
    for i := 0 to |rows|
      invariant drifted == Count(rows[..i])
      invariant forall j :: 0 <= j < i ==> Scans(rows[j])
    {
      var row := rows[i];
      if !Scans(row) {
        return drifted, Some(Constraint);
      }
      var expectedAvailable;
      match row.kind {
        case Asset => expectedAvailable := Wrap(row.debits - row.credits);
        case Expense => expectedAvailable := Wrap(row.debits - row.credits);
        case _ =>
          expectedAvailable := Wrap(row.credits - row.debits);
          expectedAvailable := Wrap(expectedAvailable - row.activeHeld);
      }
      if row.available != expectedAvailable || row.held != row.activeHeld {
        drifted := drifted + 1;
      }
      assert rows[..i + 1][..i] == rows[..i];
    }
    assert rows[..|rows|] == rows;
    return drifted, ending;
  }

  /** The accounts whose balance row differs from the fold over entries and active holds. */
  ghost function Drifted(db: Db): set<Uuid> {
    set a | a in db.accounts && !Agrees(db, a)
  }

  ghost function ReportedIn(rows: seq<Row>): set<Uuid> {
    if rows == [] then {}
    else ReportedIn(rows[..|rows| - 1]) + (if Reported(rows[|rows| - 1]) then {rows[|rows| - 1].id} else {})
  }

  lemma {:induction false} ReportedMembers(rows: seq<Row>, a: Uuid)
    ensures a in ReportedIn(rows) <==> exists i :: 0 <= i < |rows| && Reported(rows[i]) && rows[i].id == a
  {
    hide Reported;
    if rows != [] {
      ReportedMembers(rows[..|rows| - 1], a);
      assert forall i :: 0 <= i < |rows| - 1 ==> rows[..|rows| - 1][i] == rows[i];
    }
  }

  ghost predicate OneRowEach(rows: seq<Row>) {
    forall i, j :: 0 <= i < j < |rows| ==> rows[i].id != rows[j].id
  }

  lemma {:induction false} CountIsCardinality(rows: seq<Row>)
    requires OneRowEach(rows)
    ensures Count(rows) == |ReportedIn(rows)|
  {
    hide Reported;
    if rows != [] {
      var front, last := rows[..|rows| - 1], rows[|rows| - 1];
      CountIsCardinality(front);
      ReportedMembers(front, last.id);
    }
  }

  /** A drifted account whose wrapped expectation happens to match: only a liability, only below -2^63. */
  ghost predicate Masked(db: Db, a: Uuid)
    requires a in db.accounts
  {
    && a in db.balances
    && !CountsDebits(db.accounts[a].kind)
    && Expected(db, a) < MIN
    && db.balances[a].available == Expected(db, a) + SPAN
    && db.balances[a].held == ActiveSum(db.holds, a)
  }

  ghost predicate SumsScan(db: Db) {
    forall a :: a in db.accounts ==>
      0 <= Debits(db.entries, a) <= MAX && 0 <= Credits(db.entries, a) <= MAX && 0 <= ActiveSum(db.holds, a) <= MAX
  }

  lemma ReportedIffDrifted(db: Db, a: Uuid)
    requires a in db.accounts && a in db.balances && 0 <= db.balances[a].available <= MAX
    requires 0 <= Debits(db.entries, a) <= MAX && 0 <= Credits(db.entries, a) <= MAX
    requires 0 <= ActiveSum(db.holds, a) <= MAX
    ensures Reported(RowOf(db, a)) <==> !Agrees(db, a) && !Masked(db, a)
  {
    var row := RowOf(db, a);
    WrapAbsorbs(row.credits - row.debits, -row.activeHeld);
    if Expected(db, a) < MIN {
      WrapIsUnique(Expected(db, a), Expected(db, a) + SPAN, -1);
    }
  }

  ghost function MaskedIn(db: Db): set<Uuid> {
    set a | a in db.accounts && Masked(db, a)
  }

  lemma ReportedIsUnmasked(db: Db, rows: seq<Row>, a: Uuid)
    requires Answers(db, rows) && Ranges(db) && SumsScan(db)
    ensures a in ReportedIn(rows) <==> a in Drifted(db) && a !in MaskedIn(db)
    ensures a in MaskedIn(db) ==> a in Drifted(db)
  {
    hide Reported, Agrees, Masked, RowOf, ReportedIn;
    ReportedMembers(rows, a);
    if a in db.accounts {
      ReportedIffDrifted(db, a);
      if Masked(db, a) {
        MaskedHasDrifted(db, a);
      }
    }
  }

  /** With sums that fit int64, the result is the number of drifted accounts less the masked ones. */
  lemma CountMissesMasked(db: Db, rows: seq<Row>)
    requires Answers(db, rows) && Ranges(db) && SumsScan(db)
    ensures MaskedIn(db) <= Drifted(db)
    ensures Count(rows) == |Drifted(db)| - |MaskedIn(db)|
  {
    hide Drifted, MaskedIn, ReportedIn, Ranges, SumsScan;
    forall a ensures a in ReportedIn(rows) <==> a in Drifted(db) && a !in MaskedIn(db) {
      ReportedIsUnmasked(db, rows, a);
    }
    forall a | a in MaskedIn(db) ensures a in Drifted(db) {
      ReportedIsUnmasked(db, rows, a);
    }
    CountIsCardinality(rows);
    assert ReportedIn(rows) == Drifted(db) - MaskedIn(db);
    assert |Drifted(db) - MaskedIn(db)| == |Drifted(db)| - |MaskedIn(db)|;
  }

  /** So it is the number of drifted accounts iff no drift is masked. */
  lemma ReconcileIsExact(db: Db, rows: seq<Row>)
    requires Answers(db, rows) && Ranges(db) && SumsScan(db)
    ensures Count(rows) == |Drifted(db)| <==> forall a :: a in db.accounts ==> !Masked(db, a)
  {
    hide Reported, Agrees, Masked, RowOf;
    CountMissesMasked(db, rows);
    if a :| a in db.accounts && Masked(db, a) {
      assert a in MaskedIn(db);
    } else {
      assert MaskedIn(db) == {};
    }
  }

  lemma MaskedHasDrifted(db: Db, a: Uuid)
    requires a in db.accounts && Masked(db, a) && a in db.balances && 0 <= db.balances[a].available
    ensures !Agrees(db, a)
  {
  }

  lemma {:induction false} AnswerExists(db: Db, todo: set<Uuid>) returns (rows: seq<Row>)
    requires Tables(db) && todo <= db.accounts.Keys
    ensures forall i :: 0 <= i < |rows| ==> rows[i].id in todo && rows[i] == RowOf(db, rows[i].id)
    ensures OneRowEach(rows) && forall a :: a in todo ==> exists i :: 0 <= i < |rows| && rows[i].id == a
  {
    hide RowOf;
    if todo == {} {
      rows := [];
    } else {
      var a :| a in todo;
      var front := AnswerExists(db, todo - {a});
      rows := front + [RowOf(db, a)];
      RowHasId(db, a);
      forall b | b in todo ensures exists i :: 0 <= i < |rows| && rows[i].id == b {
        if b == a {
          assert rows[|front|].id == a;
        } else {
          assert b in todo - {a};
          var i :| 0 <= i < |front| && front[i].id == b;
          assert rows[i].id == b;
        }
      }
    }
  }

  lemma RowHasId(db: Db, a: Uuid)
    requires a in db.accounts && a in db.balances
    ensures RowOf(db, a).id == a
  {
  }

  /**
   * The migrated database with one more account, a hold of MAX on it and a posting that debits it by MAX.
   * Its balance row claims 2 available, where -2 * MAX is justified.
   */
  ghost function MaskedState(a: Uuid, t: Uuid, h: Uuid): Db {
    var db := Initial();
    db.(accounts := db.accounts[a := Account(0, USD, Liability)],
        balances := db.balances[a := Balance(2, MAX, 0)],
        transactions := map[t := Transaction(None, DepositKind, None)],
        entries := [Entry(t, Leg(a, Debit, MAX, USD))],
        holds := map[][h := Hold(a, 0, MAX, USD, Active, 0)])
  }

  lemma MaskedStateSums(a: Uuid, t: Uuid, h: Uuid, b: Uuid)
    requires !IsSystem(a)
    ensures var db := MaskedState(a, t, h);
      && Debits(db.entries, b) == (if b == a then MAX else 0) && Credits(db.entries, b) == 0
      && ActiveSum(db.holds, b) == if b == a then MAX else 0
  {
    var e := Entry(t, Leg(a, Debit, MAX, USD));
    assert [e] == [] + [e];
    SumByAppend([], e, (e: Entry) => LegSide(e, b, Debit));
    SumByAppend([], e, (e: Entry) => LegSide(e, b, Credit));
    ActivePut(map[], h, Hold(a, 0, MAX, USD, Active, 0), b);
    NothingActive(map[], b);
  }

  /** The state breaks no constraint of the migration. */
  lemma MaskedStateIsStorable(a: Uuid, t: Uuid, h: Uuid)
    requires !IsSystem(a)
    ensures var db := MaskedState(a, t, h);
      Tables(db) && Ranges(db) && HoldsSound(db) && OnePerPayment(db) && KeysUnique(db) && EntriesSound(db)
  {
    var db := MaskedState(a, t, h);
    assert Initial().balances.Keys == Initial().accounts.Keys;
    forall e | e in db.entries ensures EntrySound(db, e) {
      assert e == Entry(t, Leg(a, Debit, MAX, USD));
    }
  }

  /** A storable state with a drifted account that the wrapped subtraction hides: Reconcile counts 0 instead of 1. */
  lemma MaskedDriftExists(a: Uuid, t: Uuid, h: Uuid) returns (rows: seq<Row>)
    requires !IsSystem(a)
    ensures Answers(MaskedState(a, t, h), rows) && forall i :: 0 <= i < |rows| ==> Scans(rows[i])
    ensures Drifted(MaskedState(a, t, h)) == {a} && Count(rows) == 0
  {
    hide RowOf, Reported, Debits, Credits, ActiveSum;
    var db := MaskedState(a, t, h);
    MaskedStateIsStorable(a, t, h);
    rows := AnswerExists(db, db.accounts.Keys);
    forall b | b in db.accounts ensures (b in Drifted(db) <==> b == a) && (Masked(db, b) <==> b == a) {
      MaskedStateSums(a, t, h, b);
    }
    assert Drifted(db) == {a} && MaskedIn(db) == {a};
    assert SumsScan(db) by {
      forall b | b in db.accounts ensures 0 <= Debits(db.entries, b) <= MAX && Credits(db.entries, b) == 0
          && 0 <= ActiveSum(db.holds, b) <= MAX {
        MaskedStateSums(a, t, h, b);
      }
    }
    CountMissesMasked(db, rows);
    forall i | 0 <= i < |rows| ensures Scans(rows[i]) {
      RowScans(db, rows[i].id);
    }
  }

  lemma RowScans(db: Db, a: Uuid)
    requires SumsScan(db) && a in db.accounts && a in db.balances
    ensures Scans(RowOf(db, a))
  {
  }

  /** In a state satisfying the invariant the sums scan and nothing has drifted. */
  lemma CleanWhenInvariant(db: Db, rows: seq<Row>)
    requires Tables(db) && Ranges(db) && Chart(db) && Conserved(db) && Books(db) && CreditBounds(db)
    requires Answers(db, rows)
    ensures forall i :: 0 <= i < |rows| ==> Scans(rows[i])
    ensures Count(rows) == 0
  {
    forall i | 0 <= i < |rows| ensures Scans(rows[i]) && !Reported(rows[i]) {
      RowIsClean(db, rows[i].id);
    }
    CountZero(rows);
  }

  lemma RowIsClean(db: Db, a: Uuid)
    requires Tables(db) && Ranges(db) && Chart(db) && Conserved(db) && Books(db) && CreditBounds(db)
    requires a in db.accounts
    ensures Scans(RowOf(db, a)) && !Reported(RowOf(db, a))
  {
    hide CreditBounds, Conserved, Chart, Ranges;
    ReconcileSumsFit(db, a);
    assert Agrees(db, a);
    ReportedIffDrifted(db, a);
  }

  lemma {:induction false} CountZero(rows: seq<Row>)
    requires forall i :: 0 <= i < |rows| ==> !Reported(rows[i])
    ensures Count(rows) == 0
  {
    if rows != [] {
      CountZero(rows[..|rows| - 1]);
    }
  }

  /**
   * Hold does not look at the account's type, and Reconcile does not subtract holds from assets: a
   * hold keeps the books clean exactly when its account is not an asset or expense account.
   */
  lemma HoldDriftsIffDebitAccount(db: Db, holdId: Uuid, a: Uuid, p: Uuid, amount: int, c: Currency, x: int)
    requires Tables(db) && Books(db) && HoldSpec(db, holdId, a, p, amount, c, x).Ok?
    ensures Drifted(HoldSpec(db, holdId, a, p, amount, c, x).value) == {} <==> !CountsDebits(db.accounts[a].kind)
    ensures Drifted(HoldSpec(db, holdId, a, p, amount, c, x).value) <= {a}
  {
    var after := HoldEffect(db, holdId, a, p, amount, c, x);
    forall i | i in after.accounts ensures Agrees(after, i) <==> i != a || !CountsDebits(db.accounts[a].kind) {
      assert Agrees(db, i);
      ActivePut(db.holds, holdId, Hold(a, p, amount, c, Active, x), i);
    }
    assert a in after.accounts;
    assert CountsDebits(db.accounts[a].kind) ==> a in Drifted(after);
  }
}
